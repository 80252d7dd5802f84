# Clawpot in Dafny

Clawpot runs untrusted workloads in Firecracker virtual machines. Its server hands out addresses on a
private bridge, keeps a registry of the VMs, filters their traffic with iptables, proxies their DNS,
HTTP and HTTPS traffic, and records what they do; an agent in each guest runs commands and streams their
output. This project models the logic of those parts and proves what they promise.

`dafny verify dfyconfig.toml` checks all of it.

## How it is organised

- **Provisioning** (`IpAllocator`, `VmRegistry`, `Iptables`, `OwnershipLedger`, `Provisioning`,
  `ProvisioningProofs`, `ProvisioningSafety`, `ProvisioningChain`, `ProvisioningProgress`). Any number
  of create, delete and shutdown handlers interleave at every await; any step may fail and any handler may
  be cancelled. `Provisioning` is the transition system. `OwnershipLedger` is the abstract account of who owns which address; each step of a
  handler is one operation on it, and `ProvisioningProofs.InvStep` is the inductive invariant.
  `ProvisioningSafety` draws the conclusions for every reachable state, `ProvisioningChain` those about the
  order of the FORWARD chain, and `ProvisioningProgress` what the handlers get done: every one comes to
  its end, and what it then leaves. Releasing an address does not check who owns it, so safety rests on the
  handlers alone.
- **Event store** (`EventStore`). The batching writer as loops over a channel; a schedule says what has
  arrived by each poll and an oracle says which commits succeed, so one contract covers every
  interleaving and every pattern of failures. The loops are proved to make the batches of `Written`, and
  the guarantees are proved of those.
- **Streaming execution** (`ExecStream`). The four tasks of the agent and the client as a transition
  system over a channel of 32 messages.
- **Proxies** (`Sni`, `Dns`, `DnsNames`, `DnsTcp`, `ProxyProtocol`, `Attribution`). Byte parsers as loops, each proved
  equal to a specification on suffixes, with reference encoders, round trips and truncation laws;
  `Attribution` joins the PROXY header with the registry of a reachable server.
- **LLM logging** (`Sse`, `SseRendering`, `Json`, `Llm`, `OpenAi`, `LlmReply`, `LlmStreams`). Server-sent events,
  the reassembly of streamed replies, their agreement with replies sent in one piece, and which field of
  which event each part of the record comes from.
- **VM manager** (`VmManager`). The lifecycle and the process slot under arbitrary faults.
- `Options`, `Bytes`, `Utf8` and `Text` hold what the Rust standard library provides.

Code that updates fields in place is a class (`IpAllocator`, `VmRegistry`, `Host`, `VmLifecycle`,
`VmManager`); loops are methods with invariants; handlers and tasks that run concurrently are transition
systems over their steps. Hash maps iterate in an order given as a parameter.

## Where the code differs from what it says

Each of these has a lemma at an input where the code fails, and one that says exactly when it does not.

- The comment at clawpot-server/src/proxy/dns_proxy.rs:374 says the authoritative answer bit is cleared; the
  mask 0xFD clears the truncation bit. `Dns.RefusalWithAuthority` is a query whose refusal keeps the bit;
  `Dns.RefusalClearsAuthorityIff`: the bit is clear in the refusal exactly when it was clear in the query.
- `extract_sni` promises `None` when parsing fails (clawpot-server/src/proxy/tls_mitm.rs:154-155), but indexes
  the handshake header after a check for one byte only. `Sni.OneHandshakeBytePanics` is a record of six bytes;
  `Sni.PanicsIffCutShort`: it panics exactly on a ClientHello record of which one to three handshake bytes
  are present.
- The comment at clawpot-server/src/network/iptables.rs:116 says the DROP rule must be last. Startup puts it
  last (`Iptables.StartupPutsDropLast`), but the source rules of the VMs are appended behind it.
  `ProvisioningChain.OneCreateSuffices` is the run of one create; `ProvisioningChain.DropIsLastIff`: over every
  run the rule is last exactly while no shutdown has deleted it, no VM is registered, no handler has its rule
  in the chain, and no rule was left behind.
- `start` accepts a VM that is still starting, and then overwrites the process of a start that failed after its
  spawn; that process is neither killed nor waited for. `VmManagement.SecondStartLoses` is the shortest run;
  `VmManagement.LostIff`: a run loses a process exactly when, since the last stop, some start spawned one, none
  succeeded, and another start spawns. A caller that answers every faulty start with a stop loses nothing
  (`VmManagement.CarefulCallersLoseNothing`). The server calls `start` once per manager.
- The name shown to the DNS authorizer is lossy. Names with a dot inside a label
  (`DnsNames.DottedLabelsCollide`) and names of different malformed bytes (`DnsNames.MalformedLabelsCollide`) are
  reported alike. `DnsNames.IdentifiesIff`: the report identifies the dotted bytes of the name asked for exactly
  when no replacement character stands in it; well-formed names are reported alike exactly when their dotted
  bytes agree (`DnsNames.ReportedAlikeIff`), and without dots inside labels exactly when the labels do
  (`DnsNames.NameIdentifiesLabels`).
- An OpenAI response may be recorded with a token count when sent in one piece and without it when streamed
  (`LlmReply.ResponsesMayDiffer`). `LlmReply.ResponsesAgreeIff`: the two agree exactly when the document of the
  first completed event that parses has no count under the chat endpoint's keys alone.

## Model

| member | source | states |
|---|---|---|
| `IpAllocation.IpAllocator.constructor` | clawpot-server/src/network/ip_allocator.rs:19-33 | a new allocator holds no address and its cursor is at .2 |
| `IpAllocation.IpAllocator.Allocate` | clawpot-server/src/network/ip_allocator.rs:37-59 | the scanning loop computes the pool step whose meaning `AllocateRefinesSet` gives; nothing changes when the pool is full |
| `IpAllocation.IpAllocator.Release` | clawpot-server/src/network/ip_allocator.rs:62-88 | releases an address in range whoever holds it; a rejected address changes nothing |
| `IpAllocation.IpAllocator.AllocatedCount` | clawpot-server/src/network/ip_allocator.rs:98-101 | the number of addresses held, counted by a loop over the bitmap |
| `IpAllocation.IpAllocator.AvailableCount` | clawpot-server/src/network/ip_allocator.rs:104-106 | 253 less the number of addresses held |
| `IpAllocation.ScanFindsNearest` | clawpot-server/src/network/ip_allocator.rs:40-55 | the scan finds the free position nearest the cursor going round, and fails exactly when all are taken |
| `IpAllocation.AllocateRefinesSet` | clawpot-server/src/network/ip_allocator.rs:37-59 | on the set of held addresses: allocation adds the free allocatable address nearest the cursor going round, or fails with all of them held |
| `IpAllocation.ReleaseRefinesSet` | clawpot-server/src/network/ip_allocator.rs:62-88 | on the set of held addresses: release removes the address, or is rejected exactly outside the range and changes nothing |
| `IpAllocation.RunRefinesSet` | clawpot-server/src/network/ip_allocator.rs:19-88 | every call of every run is a step of the set specification |
| `IpAllocation.AddressesAreIndices` | clawpot-server/src/network/ip_allocator.rs:49-82 | bitmap positions and the addresses .2 to .254 are in bijection, so network, gateway and broadcast addresses are never issued |
| `IpAllocation.StarvationBound` | clawpot-server/src/network/ip_allocator.rs:37-88 | whatever releases are interleaved, a free address is issued within its distance from the cursor plus one allocations, at most 253 |
| `IpAllocation.NearerIsFirst` | clawpot-server/src/network/ip_allocator.rs:37-88 | of two free addresses the one nearer the cursor is issued first, in every run |
| `IpAllocation.FullIffExhausted` | clawpot-server/src/network/ip_allocator.rs:37-59 | allocation fails exactly when 253 addresses are held, and never more are |
| `VmRegistration.VmRegistry.Insert` | clawpot-server/src/vm/registry.rs:40-49 | adds an entry, or fails and changes nothing when the identifier is present |
| `VmRegistration.VmRegistry.Remove` | clawpot-server/src/vm/registry.rs:53-58 | takes the entry out and returns it, or fails and changes nothing |
| `VmRegistration.FindByIp` | clawpot-server/src/vm/registry.rs:119-124 | finds a VM with the address if and only if there is one; it is the first in iteration order |
| `VmRegistration.LookupIgnoresOrder` | clawpot-server/src/vm/registry.rs:119-124 | when addresses are distinct the answer does not depend on the iteration order |
| `Iptables.Host.AppendRules` | clawpot-server/src/network/iptables.rs:76-128 | appends the rules in order, up to the call that fails |
| `Iptables.Host.EnsureRules` | clawpot-server/src/network/iptables.rs:132-205 | appends each rule that is missing, up to the call that fails |
| `Iptables.Host.RemoveProxyRules` | clawpot-server/src/network/iptables.rs:208-251 | nothing when iptables cannot be opened; otherwise the first occurrence of each base rule whose deletion works is gone, and nothing else |
| `Iptables.Host.EnsureBridge` | clawpot-server/src/network/bridge.rs:9-28 | from any chains, with either call failing anywhere: a new bridge gets the rules appended and then ensured, an existing one only ensured; unchanged when the bridge and all rules are there; on success all base rules are present, and from chains without them the result is that of ensuring alone |
| `Iptables.ListsAgree` | clawpot-server/src/network/iptables.rs:76-251 | the rules added, ensured and removed are the same five |
| `Iptables.RedirectsReachProxies` | clawpot-server/src/network/iptables.rs:76-128 | HTTP, HTTPS and DNS, and nothing else, are redirected, each to the port its proxy listens on |
| `Iptables.EnsureKeepsOrder` | clawpot-server/src/network/iptables.rs:132-205 | ensuring extends each chain at its end and makes every rule present |
| `Iptables.EnsureIsIdempotent` | clawpot-server/src/network/iptables.rs:132-205 | over any chains, ensuring twice, or after an ensure that was cut short, equals ensuring once |
| `Iptables.AddThenEnsure` | clawpot-server/src/network/bridge.rs:13-25 | unconditional adding, complete or cut short, followed by ensuring equals ensuring alone |
| `Iptables.StartupPutsDropLast` | clawpot-server/src/network/iptables.rs:105-185 | from chains without the base rules, startup leaves the DROP rule at the end of the FORWARD chain |
| `Iptables.RemoveRestoresRest` | clawpot-server/src/network/iptables.rs:208-251 | whichever deletions fail, and whatever source rules were added and removed since startup, the chains are as if only the rules whose deletion failed had been installed |
| `Iptables.RemoveRestores` | clawpot-server/src/network/iptables.rs:208-251 | removal undoes ensuring and commutes with any source rules added and removed in between |
| `Iptables.ServerRunRestores` | clawpot-server/src/network/iptables.rs:26-251 | a whole server run whose VMs remove the rules they added gives back the original chains |
| `ProvisioningProofs.InitHolds` | clawpot-server/src/network/ip_allocator.rs:19-33 | the invariant holds of a fresh server: no address held, no VM, no handler, no source rule |
| `ProvisioningProofs.InvStep` | clawpot-server/src/grpc/service.rs:88-254 | every step of every handler, failed or not, and every cancellation keeps the invariant |
| `ProvisioningSafety.RunKeepsInv` | clawpot-server/src/grpc/service.rs:88-254 | the invariant holds along every run |
| `ProvisioningSafety.EveryAddressHasOneOwner` | clawpot-server/src/grpc/service.rs:88-254 | in every reachable state an address is held exactly when a registered VM or a handler owns it, and then by exactly one |
| `ProvisioningSafety.LookupIsDeterministic` | clawpot-server/src/vm/registry.rs:119-124 | in every reachable state the lookup of a registered VM by its address finds that VM, in any iteration order |
| `ProvisioningSafety.AddressesAreConserved` | clawpot-server/src/grpc/service.rs:88-252 | addresses held = registered VMs + creates, teardowns and dead handlers that hold one; at most 253 VMs; a create is refused exactly when 253 are held |
| `ProvisioningSafety.ReleasesAreSafe` | clawpot-server/src/grpc/service.rs:107-252 | an address about to be released is held, by the releasing handler alone, and has not been released for that VM before |
| `ProvisioningSafety.ShutdownTakesEachOnce` | clawpot-server/src/main.rs:286-321 | each VM leaves the registry at most once and is released at most once; a VM on a shutdown list is registered as listed or has left exactly once, and all have left when the list is done |
| `ProvisioningSafety.RegistrationSucceeds` | clawpot-server/src/grpc/service.rs:184-190 | the branch that keeps the address of a VM whose registration fails is unreachable |
| `ProvisioningSafety.EveryVmIsFiltered` | clawpot-server/src/network/mod.rs:47-80 | every registered VM has its own source rule in the FORWARD chain exactly once, whatever failed |
| `ProvisioningSafety.OneRulePerAddress` | clawpot-server/src/network/mod.rs:47-80 | in every reachable state no source rule stands in the chain twice, and two with the same address only if the removal of one of them failed |
| `ProvisioningSafety.ReliableRunsLeaveNoStrays` | clawpot-server/src/network/iptables.rs:47-72 | runs in which rule removals succeed leave no rule behind |
| `ProvisioningChain.RunKeepsLayout` | clawpot-server/src/network/iptables.rs:26-128 | every run keeps the chain as it was, then the DROP rule until a shutdown deletes it, then source rules |
| `ProvisioningChain.DropIsLastIff` | clawpot-server/src/network/iptables.rs:116-124 | the DROP rule is last exactly while no shutdown has deleted it and nobody is filtered |
| `ProvisioningChain.OneCreateSuffices` | clawpot-server/src/network/iptables.rs:116-124 | after one create the DROP rule is followed by a source rule |
| `ProvisioningProgress.RegisteredAfterStart` | clawpot-server/src/grpc/service.rs:140-190 | in every run a VM that is or was registered had its start succeed |
| `ProvisioningProgress.TapNameDigits` | clawpot-server/src/grpc/service.rs:101-103 | a TAP name is the first eleven of the 32 hexadecimal digits of the identifier |
| `ProvisioningProgress.HandlersEnd` | clawpot-server/src/grpc/service.rs:88-254 | whatever the other handlers do, a create is at its end after at most eight steps of its own, a delete after five, a shutdown after five for each listed VM and one more |
| `ProvisioningProgress.CreateSucceeds` | clawpot-server/src/grpc/service.rs:88-211 | from every state, a create whose calls succeed registers its VM with the next address and its source rule |
| `ProvisioningProgress.CreateFails` | clawpot-server/src/grpc/service.rs:106-149 | from every state, a create with a failing call registers nothing and gives back its address and, where removal works, its rule |
| `ProvisioningProgress.CreateRefused` | clawpot-server/src/grpc/service.rs:88-94 | with no address left a create changes nothing |
| `ProvisioningProgress.DeleteSucceeds` | clawpot-server/src/grpc/service.rs:234-254 | from every state, a delete of a registered VM takes it out of the registry, frees its address and removes one copy of its rule |
| `ProvisioningProgress.ShutdownSucceeds` | clawpot-server/src/main.rs:286-327 | a shutdown left alone empties the registry and frees the address of every VM, within five steps a VM and one more |
| `ProvisioningProgress.ReachableServes` | clawpot-server/src/grpc/service.rs:88-254 | every reachable state meets what these results ask of the state they start from |
| `EventStore.FlushBatch` | clawpot-server/src/events/store.rs:443-483 | the batch becomes exactly one transaction, or none when it is empty |
| `EventStore.DrainAfterClose` | clawpot-server/src/events/store.rs:398-404 | takes every record in order, skipping Close, until a poll finds nothing |
| `EventStore.Drain` | clawpot-server/src/events/store.rs:421-434 | takes the records in order until it meets a Close, which it leaves, or a poll finds nothing; `DrainsToTheEnd` says it leaves nothing waiting |
| `EventStore.WriterLoop` | clawpot-server/src/events/store.rs:392-440 | the loop makes one transaction for each batch: a record waited for with the drain after it, or the drain after a Close waited for; `TransactionsEndAtPolls` says where the batches end |
| `EventStore.RunIsComplete` | clawpot-server/src/events/store.rs:385-441 | for every schedule the batches hold the records in send order without repetition: at least all sent before the first Close, exactly those when Close is met while draining, all that had arrived when Close was waited for, all of them when the senders hang up |
| `EventStore.DrainsToTheEnd` | clawpot-server/src/events/store.rs:421-434 | a drain stops only at a Close or with nothing waiting |
| `EventStore.TransactionsEndAtPolls` | clawpot-server/src/events/store.rs:392-440 | every transaction ends where a poll found nothing waiting, but for one cut by a Close met while draining |
| `EventStore.OneArrival` | clawpot-server/src/events/store.rs:392-440 | messages that have all arrived by the first poll make one transaction |
| `EventStore.StoredOne` | clawpot-server/src/events/store.rs:443-483 | a transaction leaves its whole batch or nothing |
| `EventStore.BackgroundWriter` | clawpot-server/src/events/store.rs:385-483 | the same of the transactions, for every pattern of failed commits: rows are the whole batches whose commit succeeded, no transaction is empty, and messages that arrive together make one |
| `EventStore.RunSession` | clawpot-server/src/events/store.rs:216-270 | the same in terms of calls: batches lie between the eligible records before the first close and all eligible records; with no failed commit so do the rows |
| `EventStore.OutgoingEvents` | clawpot-server/src/events/store.rs:237-270 | the messages put on the channel carry exactly the records the persist mode selects |
| `EventStore.EligibleByMode` | clawpot-server/src/events/store.rs:237-242 | the modes keep every record, every record but logs as often as emitted, and none |
| `ExecStream.RunKeepsInv` | clawpot-agent/src/stream.rs:70-153 | channel bound, pump accounts, order of reporting and input account hold along every interleaving |
| `ExecStream.ExitCodeIsLast` | clawpot-agent/src/stream.rs:131-153 | an exit code or failure is sent at most once and nothing follows it, in the channel and for the client |
| `ExecStream.ExitCodeIsReal` | clawpot-agent/src/stream.rs:131-153 | in every run the exit code sent or received is the one the child exited with |
| `ExecStream.FailureIsReal` | clawpot-agent/src/stream.rs:15-66 | a failure is reported only when the session could not begin |
| `ExecStream.EverySessionReports` | clawpot-agent/src/stream.rs:15-153 | a session that had a message and is over, with its client there, has sent the exit code or a failure last |
| `ExecStream.FailedSession` | clawpot-agent/src/stream.rs:15-66 | whenever the session cannot begin there is a run in which the client receives the failure and nothing else |
| `ExecStream.ClientSeesPrefix` | clawpot-agent/src/stream.rs:92-128 | what the client has of stdout, or of stderr, is a prefix of what the child wrote |
| `ExecStream.ClientSeesAll` | clawpot-agent/src/stream.rs:92-153 | a client that has received the exit code, gone or not, has all of each stream on which no read failed |
| `ExecStream.ChildGetsPrefix` | clawpot-agent/src/stream.rs:69-90 | the bytes given to the child are a prefix of the data sent before the first message of another kind |
| `ExecStream.ChildGetsAll` | clawpot-agent/src/stream.rs:69-90 | unless the input, a write or the child ended the feeding, the child has all data received up to the first other message, short only of what is being written |
| `ExecStream.OneWriteSession` | clawpot-agent/src/stream.rs:11-153 | a child that writes once has a run in which the client receives exactly its output and its exit code |
| `Sni.ExtractSni` | clawpot-server/src/proxy/tls_mitm.rs:156-238 | equals the specification on suffixes for every buffer, with every index in range but the three of the handshake header |
| `Sni.WalkExtensions` | clawpot-server/src/proxy/tls_mitm.rs:210-237 | the extension loop terminates and the first server_name extension decides |
| `Sni.PanicsIffCutShort` | clawpot-server/src/proxy/tls_mitm.rs:166-171 | it panics exactly on a ClientHello cut inside its four-byte header |
| `Sni.OneHandshakeBytePanics` | clawpot-server/src/proxy/tls_mitm.rs:166-171 | a record of six bytes on which it panics |
| `Sni.TruncationIsSafe` | clawpot-server/src/proxy/tls_mitm.rs:156-238 | any truncation that does not panic gives the answer of the whole buffer or none |
| `Sni.WalkFindsName` | clawpot-server/src/proxy/tls_mitm.rs:210-237 | the walk finds the first server name among any other extensions |
| `Sni.WalkFindsOther` | clawpot-server/src/proxy/tls_mitm.rs:210-237 | a server_name extension without a host name decides too: no name |
| `Sni.WalkFindsNothing` | clawpot-server/src/proxy/tls_mitm.rs:210-237 | extensions without a server name give no name |
| `Sni.OnlyInHellos` | clawpot-server/src/proxy/tls_mitm.rs:156-182 | a name is found only in a handshake record with a ClientHello of at least 34 bytes |
| `Sni.FindsHostName` | clawpot-server/src/proxy/tls_mitm.rs:156-238 | the host name of every well-formed ClientHello is found, whatever session id, suites, compression methods, extensions and trailing bytes surround it |
| `Dns.ParseDnsQuestion` | clawpot-server/src/proxy/dns_proxy.rs:312-365 | total, in range, and equal to the specification on every packet |
| `Dns.ReadName` | clawpot-server/src/proxy/dns_proxy.rs:324-342 | the label loop reads the name at any position, or fails exactly when the packet ends inside it |
| `Dns.ParseOfQuestion` | clawpot-server/src/proxy/dns_proxy.rs:312-365 | inverts the encoding of any labels and query type under any header with a question, whatever follows |
| `Dns.QuestionCut` | clawpot-server/src/proxy/dns_proxy.rs:324-349 | a packet that ends inside the name has no question; one that ends inside the type has it with type unknown |
| `Bytes.HighByteFirst` | clawpot-server/src/proxy/dns_proxy.rs:318-318 | two-byte numbers have their high byte first |
| `DnsNames.ReportedAlikeIff` | clawpot-server/src/proxy/dns_proxy.rs:340-344 | names of well-formed labels are reported alike exactly when their dotted bytes are equal |
| `DnsNames.IdentifiesIff` | clawpot-server/src/proxy/dns_proxy.rs:340-344 | for every name the report identifies its dotted bytes exactly when no replacement character stands in it |
| `DnsNames.NameIdentifiesLabels` | clawpot-server/src/proxy/dns_proxy.rs:340-344 | names of well-formed labels without dots are reported alike exactly when they are equal |
| `DnsNames.DottedLabelsCollide` | clawpot-server/src/proxy/dns_proxy.rs:340-344 | for any bytes, a label with a dot inside is reported like two labels |
| `DnsNames.MalformedLabelsCollide` | clawpot-server/src/proxy/dns_proxy.rs:340-344 | two labels of different malformed bytes are reported alike |
| `Dns.TypeNameIdentifies` | clawpot-server/src/proxy/dns_proxy.rs:351-362 | a reported type stands for one code, or is OTHER |
| `Dns.BuildRefusedResponse` | clawpot-server/src/proxy/dns_proxy.rs:368-379 | the in-place edits compute the refusal |
| `Dns.RefusalKeepsQuestion` | clawpot-server/src/proxy/dns_proxy.rs:368-379 | a refusal asks the same question as the query, for every packet; it differs only in the flags and in the record counts, which are zero |
| `Dns.RefusalIsIdempotent` | clawpot-server/src/proxy/dns_proxy.rs:368-379 | refusing a refusal changes nothing |
| `Dns.RefusalFlags` | clawpot-server/src/proxy/dns_proxy.rs:374-375 | response bit set, code 5, truncation bit cleared, all other flag bits kept |
| `Dns.RefusalClearsAuthorityIff` | clawpot-server/src/proxy/dns_proxy.rs:374-374 | the authoritative answer bit of a refusal is clear exactly when it was clear in the query |
| `Dns.RefusalWithAuthority` | clawpot-server/src/proxy/dns_proxy.rs:374-374 | a query with that bit whose refusal keeps it |
| `DnsTcp.HandleConnection` | clawpot-server/src/proxy/dns_proxy.rs:228-281 | the connection loop equals reading all frames, answering them in order up to the first failure, and framing the answers |
| `DnsTcp.ReadOfFrames` | clawpot-server/src/proxy/dns_proxy.rs:235-291 | framed messages are read back in order, empty ones skipped, whatever follows |
| `DnsTcp.ReadOfCut` | clawpot-server/src/proxy/dns_proxy.rs:235-291 | a stream that ends inside a message is broken, one that ends inside a length is closed |
| `DnsTcp.AnswerMeans` | clawpot-server/src/proxy/dns_proxy.rs:107-225 | a blocked query is answered by a refusal of the same question with the same identifier, a forwarded one by the bytes of the upstream, a failed one not at all |
| `DnsTcp.AnswersInOrder` | clawpot-server/src/proxy/dns_proxy.rs:228-281 | each query has its own answer, in order, up to the first that fails |
| `DnsTcp.AnswerFits` | clawpot-server/src/proxy/dns_proxy.rs:107-225 | no answer is longer than a two-byte length can say |
| `DnsTcp.WrittenIsFramed` | clawpot-server/src/proxy/dns_proxy.rs:294-309 | the cast of the length to 16 bits truncates nothing |
| `DnsTcp.ClientReadsAnswers` | clawpot-server/src/proxy/dns_proxy.rs:228-309 | a client that frames its queries reads back exactly the answers, in order, up to the first failure |
| `DnsTcp.OutputIsFramed` | clawpot-server/src/proxy/dns_proxy.rs:228-309 | on any input the output is made of whole frames |
| `ProxyProtocol.ReadProxyHeader` | clawpot-server/src/proxy/proxy_protocol.rs:35-49 | takes exactly one line of at most 257 bytes off the stream and parses it; fails when there is none |
| `ProxyProtocol.ParseOfText` | clawpot-server/src/proxy/proxy_protocol.rs:51-61 | parsing undoes printing for every IPv4 address |
| `ProxyProtocol.TextOfParsed` | clawpot-server/src/proxy/proxy_protocol.rs:51-61 | only the text that printing writes is read as an IPv4 address |
| `ProxyProtocol.AcceptedLines` | clawpot-server/src/proxy/proxy_protocol.rs:51-61 | exactly the lines of six words, PROXY first and an address third, are accepted |
| `ProxyProtocol.HeaderRoundTrip` | clawpot-server/src/proxy/proxy_protocol.rs:11-61 | for all IPv4 clients, servers, ports and payloads the header is read back as the client address; it is at most 56 bytes and the payload is untouched |
| `ProxyProtocol.HeaderWords` | clawpot-server/src/proxy/proxy_protocol.rs:5-28 | the header has the six fields of the protocol in their order |
| `Attribution.Attribute` | clawpot-server/src/proxy/http_proxy.rs:155-229 | a connection without a header is dropped; otherwise the address in it is looked up in the registry |
| `Attribution.ChargedToItsVm` | clawpot-server/src/proxy/http_proxy.rs:155-229 | in every reachable server state an HTTPS connection is charged to a VM if and only if the VM is registered under the client address, and is forbidden if and only if none is |
| `Sse.ParseFrame` | clawpot-server/src/proxy/llm.rs:164-187 | the line loop computes the name and data of a frame, or nothing for a frame without data |
| `Sse.ParseSse` | clawpot-server/src/proxy/llm.rs:152-190 | the frame loop computes the events of the text in order |
| `Sse.LeadingNewline` | clawpot-server/src/proxy/llm.rs:157-161 | a line feed in front of a text changes nothing |
| `Sse.ParseConcat` | clawpot-server/src/proxy/llm.rs:152-190 | a body cut anywhere behind a blank line parses to the events of its pieces, for all bytes |
| `SseRendering.ParseOfRendered` | clawpot-server/src/proxy/llm.rs:152-190 | any frames of names, data, comments, end markers and fields of other names parse to one event for each frame with data, with its last name and its data lines |
| `Llm.ReassembleAnthropic` | clawpot-server/src/proxy/llm.rs:207-271 | the loop computes: last start, last stop reason, last count, and the text of all deltas; `LlmStreams` says which fields these are |
| `Llm.TakeEvent` | clawpot-server/src/proxy/llm.rs:217-256 | one more event is taken into what the events so far amount to |
| `Llm.AnthropicIgnoresNoise` | clawpot-server/src/proxy/llm.rs:217-256 | an event that does not parse or has another name, inserted anywhere, changes nothing |
| `Llm.AnthropicTextConcat` | clawpot-server/src/proxy/llm.rs:235-243 | the text of two streams in a row is the text of the one and then of the other |
| `OpenAi.ReassembleChat` | clawpot-server/src/proxy/llm.rs:273-343 | the loop computes: first identifier, last model, text of all choices, last finish reason, last usage |
| `OpenAi.TakeChoices` | clawpot-server/src/proxy/llm.rs:302-316 | the loop over the choices of one chunk |
| `OpenAi.ChatIgnoresNoise` | clawpot-server/src/proxy/llm.rs:283-286 | a chunk that does not parse, inserted anywhere, changes nothing |
| `OpenAi.ReassembleResponses` | clawpot-server/src/proxy/llm.rs:345-378 | the first completed response that parses |
| `LlmReply.ProcessResponse` | clawpot-server/src/proxy/llm.rs:382-413 | dispatch on content type and endpoint |
| `LlmReply.AnthropicReadsBack` | clawpot-server/src/proxy/llm.rs:258-413 | the reassembled document, read as a plain reply, gives the same model and counts |
| `LlmReply.ChatReadsBack` | clawpot-server/src/proxy/llm.rs:330-413 | the same for the chat endpoint, through its own keys |
| `LlmReply.ResponsesAgreeIff` | clawpot-server/src/proxy/llm.rs:345-413 | from the bytes: a response streamed and the same response in one piece are recorded alike if and only if the document of the first completed event that parses has no count under the other keys alone |
| `LlmReply.RenderedResponsesAgreeIff` | clawpot-server/src/proxy/llm.rs:152-413 | the same from the frames the provider writes |
| `LlmReply.ResponsesMayDiffer` | clawpot-server/src/proxy/llm.rs:345-413 | a response with only a prompt count is recorded without it when streamed and with it when not |
| `LlmReply.OnlyDataMatters` | clawpot-server/src/proxy/llm.rs:152-413 | from the bytes of a stream to the record: comments and end markers change nothing at any endpoint |
| `LlmReply.TextOfPieces` | clawpot-server/src/proxy/llm.rs:152-343 | the recorded text of a body cut behind a blank line is that of its pieces |
| `LlmStreams.StartDecides` | clawpot-server/src/proxy/llm.rs:217-234 | the last message_start gives identifier, model and input count, each under its key |
| `LlmStreams.DeltaAdds` | clawpot-server/src/proxy/llm.rs:235-243 | a text delta adds its text where it stands and one of another type nothing |
| `LlmStreams.EndDecides` | clawpot-server/src/proxy/llm.rs:244-256 | the last message_delta gives stop reason and output count |
| `LlmStreams.AnthropicStream` | clawpot-server/src/proxy/llm.rs:152-413 | from the bytes of a start, any deltas and an end to the record: identifier, model, counts, stop reason and the texts in order |
| `LlmStreams.UsageDecides` | clawpot-server/src/proxy/llm.rs:318-328 | the last chunk with usage gives both chat counts, in the record and in the document |
| `LlmStreams.NullUsageErases` | clawpot-server/src/proxy/llm.rs:318-328 | a null usage takes the counts away |
| `LlmStreams.ModelDecides` | clawpot-server/src/proxy/llm.rs:288-300 | the last chunk with a model gives the model |
| `LlmStreams.IdDecides` | clawpot-server/src/proxy/llm.rs:288-300 | the first chunk with an identifier gives the identifier |
| `LlmStreams.ContentAdds` | clawpot-server/src/proxy/llm.rs:302-316 | a choice adds its content where it stands |
| `LlmStreams.FinishDecides` | clawpot-server/src/proxy/llm.rs:302-316 | the last finish reason is recorded |
| `LlmStreams.CompletedDecides` | clawpot-server/src/proxy/llm.rs:345-378 | the first completed event that parses is the record, with the counts under its keys |
| `LlmStreams.StreamTypes` | clawpot-server/src/proxy/llm.rs:382-413 | every content type around text/event-stream is a stream, a missing one is not |
| `VmManagement.VmLifecycle.TransitionTo` | clawpot-common/src/vm/lifecycle.rs:53-82 | succeeds exactly along an edge of the lifecycle or in place, and otherwise changes nothing |
| `VmManagement.LifecycleLaws` | clawpot-common/src/vm/lifecycle.rs:53-82 | the error state is final, a VM runs only when it was starting, and none becomes one never started |
| `VmManagement.VmManager.Start` | clawpot-common/src/vm/manager.rs:44-95 | the new state and slot for every point at which it can fail |
| `VmManagement.VmManager.Stop` | clawpot-common/src/vm/manager.rs:236-280 | the new state and slot |
| `VmManagement.RunsRest` | clawpot-common/src/vm/manager.rs:44-280 | after any completed calls with any faults: running holds a process, not started and stopped hold none, stopping and error are never left behind |
| `VmManagement.StopAfterRun` | clawpot-common/src/vm/manager.rs:236-280 | stop succeeds exactly unless the VM was never started, and empties the slot in any case |
| `VmManagement.StartAfterRun` | clawpot-common/src/vm/manager.rs:44-95 | start succeeds exactly when no call fails and the VM is not running; on a running VM or an invalid configuration it changes nothing; any other failure leaves it starting, with the new process in the slot exactly if one was spawned |
| `VmManagement.ProcessesAreAccounted` | clawpot-common/src/vm/manager.rs:98-117 | every process spawned is in the slot, or taken out to be killed, or overwritten, and only one of these |
| `VmManagement.StateByCalls` | clawpot-common/src/vm/manager.rs:44-280 | the VM runs exactly when a start since the last stop succeeded, and a process is up exactly when one spawned |
| `VmManagement.LostIff` | clawpot-common/src/vm/manager.rs:44-117 | a spawned process is neither in the slot nor taken out to be killed if and only if, since the last stop, a start spawned, none succeeded, and another spawned |
| `VmManagement.CarefulCallersLoseNothing` | clawpot-common/src/vm/manager.rs:44-117 | a run in which every faulty start is followed by stop loses no process |
| `VmManagement.SecondStartLoses` | clawpot-common/src/vm/manager.rs:44-117 | two starts, the first of which fails at the socket, lose the first process |

## Left out

- TAP devices themselves: a failed `create_tap` may leave one behind, and nothing is claimed about them; only the source rules and addresses are tracked.
- Identifiers and TAP names are fresh for every create; the model takes that as the guard of the step, since it rests on random UUIDs.
- Cancellation inside `VmManager`: `VmManagement.RunsRest` is about completed calls; a call dropped halfway can leave the state stopping.
- `VmManager::drop` and the socket file: best-effort clean-up without effect on the states above.
- Time: timeouts, sleeps, polling intervals and durations; a timeout is one of the ways a step may fail.
- SQLite, its schema, queries and the session row: the database is the sequence of committed batches.
- The text of JSON: parsing it is a parameter, and a reassembled document is read back as a value, not as text.
- IPv6 text: printing and parsing an IPv6 address are parameters; the headers with an IPv6 address are not covered by the round trip.
- The spelling of iptables rules: a rule is a value in its chain, and two rules are the same when their values are.
- The DNS upstream exchange, the authorizer and the events logged about it: a query is blocked, answered or failed as a parameter says.
- Provider detection, key injection, request summaries, the body store and certificate generation: table look-ups and library calls.
- The connection handling of the HTTP and TLS proxies beyond the PROXY header and `extract_sni`.
- The command line client, the gRPC and vsock transports, telemetry and configuration.
