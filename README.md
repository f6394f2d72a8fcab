# restunc: the request set and termination of a STUN diagnostic client

restunc is a command-line STUN client. It runs a handful of NAT diagnostics against one STUN server:

- binding discovery;
- the five NAT-behaviour probes: hairpinning, mapping, filtering, binding lifetime and generic ALG detection;
- a TURN relay allocation, with a loopback bridge;
- an ICE test.

Each requested diagnostic is a flag in one shared request set (`union req`: eight booleans, also readable as one 64-bit word). A flag is set by a command-line option. It is cleared when the probe's start routine fails, or when the probe's protocol engine reports that the probe is over. Not every report ends a probe. A successful TURN allocation leaves the relay flag set. A lifetime round that has not converged leaves the lifetime flag set. A successful ICE start is never followed by a clear. The run ends (`re_cancel`) as soon as the whole word reads zero.

This project models that state machine in Dafny:

- `Requests` (net.dfy holds the shared vocabulary): the request set and its whole-word view. It also holds the termination check, the pure run-state functions `Cleared`, `CheckDone`, `Complete` and `CompleteAll`, and the lemmas about them. `Registry` is the single shared instance of the request set, together with the event loop's stop flag.
- `Natbd`: class `NatBd` holds the five engine handles. It has the five start routines with their "already running" guards, the five completion handlers and `Close`.
- `Turn`: class `TurnClient` covers the TURN client and the relay bridge:
  - socket setup;
  - the allocation guard;
  - the client callback;
  - the forwarding rules between the relay-application socket and the loop socket.
- `Client`: the main module.
  - The functions choose the discovery service.
  - `DispatchOrder` and `RunLines` are the specification of the DNS handler's dispatch. `RunLinesIsSteps` proves that testing each flag just before its start, in field order, starts exactly the probes that were requested when resolution finished.
  - Class `Stunc` holds the DNS handler, the binding-discovery and ICE starts and `start_service`. Each of these methods is proved against those functions.
- `Options`: the getopt loop of `main`, as a method over the options getopt returned. It is proved against `ApplyAll`, and the lemmas say which letters set which flags.
- `Scenarios`: whole runs on fresh objects. Each one states how the run ends.

The protocol engines (the keepalive, the `nat_*` engines, the TURN client, ICE) belong to the networking library. They are parameters here:
- the error of each allocation and start call, as `StartOutcome`;
- the payload of each callback.

## Model

| member | source | states |
|---|---|---|
| Requests.Rank | src/stunc.h:23-32 | each probe kind has exactly one field of the request set, at its position in field order |
| Requests.AllProbesDistinct | src/stunc.h:23-32 | the request set has exactly eight named flags, no two for the same probe, and every probe kind has one |
| Requests.ReqSet.Set | src/stunc.h:23-32 | writing one named flag changes that flag and no other |
| Requests.GetDetermines | src/stunc.h:23-32 | a request set is nothing but its eight flags: two sets that agree on every probe are equal |
| Requests.ReqSet.Bytes | src/stunc.h:22-34 | the union's flag bytes: eight of them, each 0 or 1 |
| Requests.BytesAt | src/stunc.h:22-34 | a probe's byte in the word is its flag, at its field's position |
| Requests.LittleEndianZero | src/stunc.h:33 | a word packed from bytes is zero exactly when every byte is zero |
| Requests.LittleEndianBound | src/stunc.h:33 | n packed bytes fit in 8n bits |
| Requests.UnpackLittleEndian | src/stunc.h:33 | unpacking a packed word gives the bytes back |
| Requests.FlagsZeroIff | src/main.c:63 | the whole word `flags` is zero exactly when no named flag is set, in both directions; termination relies on this |
| Requests.FlagsRoundTrip | src/stunc.h:22-34 | the word fits in uint64_t and reads back as the same eight flags |
| Requests.ZeroWordClearsAll | src/main.c:241 | writing `flags = 0` clears all eight probes at once |
| Requests.Cleared | src/natbd.c:74-75 | writing a probe's flag false clears it, leaves every other flag alone and does not stop the run |
| Requests.CheckDone | src/main.c:61-67 | the termination check keeps the request set and stops the run exactly when it was stopped already or no flag is set |
| Requests.CompleteIdempotent | src/natbd.c:187-197 | a completion reported twice is the same as once (the lifetime handler on an error with min == cur) |
| Requests.CompletePreserves | src/main.c:61-67 | clearing a flag and then checking never stops a run while a probe is pending, and keeps "stopped iff nothing pending" |
| Requests.CompleteAllRequests | src/main.c:84-85 | after completions arrive in any order, exactly the reported probes are cleared and every other flag keeps its value |
| Requests.CompleteAllKeepsCancel | src/main.c:61-67 | once the run is stopped, later completions never restart it |
| Requests.TerminatesOnceAllReported | src/main.c:61-67 | once every pending probe has reported, the run has stopped |
| Requests.NoEarlyTermination | src/main.c:61-67 | while some pending probe has not reported, the run does not stop |
| Requests.SettledIsInvariant | src/main.c:61-67 | "stopped exactly when nothing is pending" holds after any series of completions |
| Requests.Registry.constructor | src/stunc.h:36 | the single shared request set starts as given, with the run not stopped |
| Requests.Registry.Clear | src/natbd.c:75 | `req.f.<probe> = false`: the new state is `Cleared` of the old |
| Requests.Registry.ClearAll | src/main.c:241 | `req.flags = 0`: no probe is pending afterwards, and the stop flag is untouched |
| Requests.Registry.TerminateIfDone | src/main.c:61-67 | the new state is `CheckDone` of the old: stop exactly when the word is zero, otherwise change nothing |
| Natbd.NatBd.constructor | src/natbd.c:16-26 | no engine handle is stored at start-up |
| Natbd.NatBd.Handles | src/natbd.c:16-26 | only the five NAT-behaviour probes ever hold a handle in this module |
| Natbd.NatBd.DoHairpinning | src/natbd.c:50-76 | an existing handle makes the start a no-op; otherwise a handle is stored if allocation succeeds; an allocation or start failure clears only this flag, with no termination check |
| Natbd.NatBd.DoMapping | src/natbd.c:99-125 | as for hairpinning, for the mapping probe |
| Natbd.NatBd.DoFiltering | src/natbd.c:148-174 | as for hairpinning, for the filtering probe |
| Natbd.NatBd.DoLifetime | src/natbd.c:201-227 | as for hairpinning, for the lifetime probe |
| Natbd.NatBd.DoGenAlg | src/natbd.c:258-282 | as for hairpinning, for generic ALG detection (the guard returns silently) |
| Natbd.NatBd.HairpinningHandler | src/natbd.c:32-47 | clears the hairpinning flag on error and success alike, then checks termination |
| Natbd.NatBd.MappingHandler | src/natbd.c:82-96 | clears the mapping flag unconditionally, then checks termination |
| Natbd.NatBd.FilteringHandler | src/natbd.c:131-145 | clears the filtering flag unconditionally, then checks termination |
| Natbd.NatBd.LifetimeHandler | src/natbd.c:178-198 | completes the lifetime probe on an error or when min == cur; otherwise changes nothing |
| Natbd.NatBd.GenAlgHandler | src/natbd.c:230-255 | clears the generic ALG flag on a transaction error, a STUN error code and success alike, then checks termination |
| Natbd.NatBd.Close | src/natbd.c:295-302 | all five handles are released |
| Turn.TurnClient.constructor | src/turn.c:16-27 | no client or socket exists, and the peer and loop source are the zero address |
| Turn.TurnClient.Init | src/turn.c:113-143 | stores the credentials and the peer; always binds the relay-application socket; binds the loop socket only when the relay socket bound and the loop port is non-zero; returns the first bind error |
| Turn.TurnClient.Start | src/turn.c:146-166 | an existing client makes the start clear the relay flag without allocating; a failed allocation clears it; a successful one stores the client and leaves the flag set |
| Turn.TurnClient.Done | src/turn.c:30-34 | completes the relay probe: clear its flag, then check termination |
| Turn.TurnClient.Handler | src/turn.c:37-70 | a transaction error or STUN error code completes the relay probe; a successful allocation changes no flag and asks for a channel to the peer when one is set |
| Turn.TurnClient.UdpRecv | src/turn.c:73-84 | a relay-side packet goes, unchanged, to the last loop source over the loop socket |
| Turn.TurnClient.UdpLoopRecv | src/turn.c:87-110 | a loop packet first overwrites the loop source; it goes to the peer over the relay socket exactly when a client exists and the peer is set |
| Turn.TurnClient.Close | src/turn.c:169-174 | the client, the relay socket and the loop socket are released |
| Options.Request | src/main.c:451-489 | each probe letter sets exactly its own flag; -a sets exactly bd, nh, nm, nf and ga; every other flag keeps its value |
| Options.Defaults | src/main.c:409-416 | before any option: no transport, IPv4, nothing requested, the library's default RTO and relay lifetime, no credentials and no destination |
| Options.Apply | src/main.c:425-513 | one option sets a probe's flag exactly when its letter selects the probe and touches no other flag; only -u and -t change the transport; the server is left alone |
| Options.RequestedProbes | src/main.c:419-514 | after the option loop a probe is requested exactly when it was before or some option's letter selects it |
| Options.TransportUnchanged | src/main.c:443-449 | without -u or -t the transport keeps its zero-initialised value |
| Options.ParseCommandLine | src/main.c:404-521 | '?' or a wrong argument count is a usage error (-2); otherwise every option is applied in order and the server is the last argument |
| Client.ServiceFor | src/main.c:309-317 | the priority rule: ICE gives binding usage, else relay gives relay usage, else binding discovery gives binding usage, else behaviour usage (each as an iff) |
| Client.StartStep | src/main.c:259-275 | one start routine clears its probe's flag exactly when it fails against the engines held, and no other flag |
| Client.StartStepsSnoc | src/main.c:259-275 | a series of starts extended by one is one more start |
| Client.StartStepsUntouched | src/main.c:259-275 | starts of other probes leave a probe's flag and engine alone |
| Client.StartStepsEffect | src/main.c:259-275 | after distinct starts, each flag is cleared exactly when its own start failed |
| Client.StartStepsEngines | src/main.c:259-275 | after a series of starts: a NAT handle for each NAT probe whose allocation succeeded, the TURN client if the relay allocation did, the keepalive if binding discovery's did |
| Client.IfRequested | src/main.c:259-260 | one dispatch line names its probe exactly when the probe's flag is set |
| Client.DispatchOrderShape | src/main.c:250-296 | UDP dispatches all eight probes and TCP all but filtering and lifetime, each in field order; no transport dispatches none |
| Client.RequestedMembers | src/main.c:250-292 | a probe is in the dispatch exactly when it is in the transport's order and requested |
| Client.RequestedIncreasing | src/main.c:250-292 | the dispatched probes stay in field order |
| Client.RunLinesSnoc | src/main.c:259-275 | a dispatch extended by one line runs that line after the others |
| Client.DispatchLine | src/main.c:259-275 | after starts of lower-ranked probes, testing a flag gives the same answer as testing it before the dispatch |
| Client.RunLinesIsSteps | src/main.c:259-275 | the if-chain starts exactly the probes of the order that were requested when it began, in order |
| Client.DispatchEffect | src/main.c:250-296 | after the dispatch a flag is cleared exactly when its probe was requested, dispatched under the transport and its start failed |
| Client.DispatchEngines | src/main.c:250-296 | the engines held after the dispatch are those of requested, dispatched probes whose allocation succeeded |
| Client.TcpLeavesFilteringAndLifetime | src/main.c:278-292 | under TCP the filtering and lifetime flags are never touched by the dispatch |
| Client.SuccessfulDispatchKeepsRequests | src/main.c:259-275 | when every set-up call succeeds and no TURN client is held, the dispatch clears no flag |
| Client.Stunc.constructor | src/main.c:25-48 | the three modules share one request set; no engine, socket or query exists |
| Client.Stunc.StartService | src/main.c:304-350 | no transport gives EPROTONOSUPPORT before any query; otherwise the query is for `ServiceFor` and the transport, and the discovery error is returned |
| Client.Stunc.MappedAddrHandler | src/main.c:73-86 | completes binding discovery on error and success alike |
| Client.Stunc.DoBinDisc | src/main.c:89-109 | an allocation failure clears only the bd flag, with no termination check; success stores the keepalive |
| Client.Stunc.DoIce | src/main.c:112-122 | only a failed ICE test clears the ice flag, with no termination check |
| Client.Stunc.StartIfRequested | src/main.c:259-260 | one dispatch line: the state afterwards is `StartIf` of the state before; of the TURN module only the client handle can change |
| Client.Stunc.DispatchUdp | src/main.c:259-276 | the UDP if-chain leaves the state `RunLines` of the UDP order; the bridge's sockets, peer, loop source and credentials are untouched |
| Client.Stunc.DispatchTcp | src/main.c:278-292 | the TCP if-chain leaves the state `RunLines` of the TCP order; the bridge's sockets, peer, loop source and credentials are untouched |
| Client.Stunc.ProtocolInit | src/main.c:249-296 | a UDP bind failure starts nothing; otherwise the transport's dispatch runs; no transport runs an empty dispatch; of the TURN module only the client handle can change |
| Client.Stunc.DnsHandler | src/main.c:234-301 | a resolution error zeroes every flag and leaves the server address as it was; otherwise the server is stored and the dispatch runs; the query is released and termination is checked exactly once; of the TURN module only the client handle can change |
| Scenarios.MappingAllocFailureEndsRun | src/main.c:298-300 | a start failure of the only requested probe ends the run at the handler's single check |
| Scenarios.ResolutionFailureEndsRun | src/main.c:238-243 | a resolution error always ends the run |
| Scenarios.TwoProbesEndAfterBoth | src/natbd.c:32-47 | with two probes running, the first report leaves the run going and the second ends it |
| Scenarios.TcpFilteringNeverEnds | src/main.c:278-292 | filtering over TCP stays pending and the run does not end on its own |
| Scenarios.UdpBindFailureStartsNothing | src/main.c:252-258 | a UDP bind failure leaves every flag set and the run going |
| Scenarios.NoTransportIsUnsupported | src/main.c:320-334 | with no transport, start_service returns EPROTONOSUPPORT and issues no query |
| Scenarios.RepeatedBindingReportIsHarmless | src/main.c:73-86 | a second keepalive report changes nothing |
| Scenarios.AllocationBindsChannel | src/turn.c:59-69 | a successful allocation with a peer asks for that peer's channel and leaves the relay probe pending |
| Scenarios.LoopbackEchoesToLatestSource | src/turn.c:73-110 | loop packets go to the peer; relay packets go back to the latest loop source |
| Scenarios.RelayBeforeLoopGoesToZero | src/turn.c:73-84 | before any loop packet, relay packets are sent to the zero address |
| Scenarios.RelayStartKeepsBridge | src/main.c:271-273 | the dispatch starts the relay client and leaves the configured peer, the loop socket and the loop source as they were |
| Scenarios.FailedStartBlocksRetry | src/natbd.c:50-76 | an engine allocated but not started keeps its handle, so a retry is a no-op |
| Scenarios.SecondRelayStartClears | src/turn.c:151-165 | a second relay start clears the relay flag, unlike the NAT-behaviour guards |

## Left out

- Sockets, `udp_listen`, `udp_send`, DNS server discovery and `net_default_source_addr_get` are I/O. Their results are error or address parameters (`udpErr`, `discoverErr`, `listenErr`, `loopListenErr`, the resolved address).
- The protocol engines (stun_keepalive, nat_hairpinning, nat_mapping, nat_filtering, nat_lifetime, nat_genalg, turnc, ice) are the networking library's. Only what their set-up calls return and what their callbacks deliver is modelled. `stun_keepalive_enable` (src/main.c:103) is not modelled: `DoBinDisc` only records that the keepalive exists. Its effect, repeated mapped-address reports, is covered by `RepeatedBindingReportIsHarmless`. `turnc_add_chan` is the channel request that `Turn.TurnClient.Handler` returns.
- src/ice.c is not part of this model. Its only effect on the request set, clearing `ice` when the test fails to start, is `DoIce`.
- The event loop, `signal_handler` and `stdin_handler` are left out. Cancellation is the boolean `Registry.cancelled`, and `re_cancel` sets it. There is no concurrency: every handler runs to completion.
- All printing, the usage text and the debug set-up are left out.
- `atoi` and `sa_decode` are left out. An option carries the number atoi made of its argument; the model stores it truncated to the field's width (uint16_t or uint32_t). The peer reaches `Turn.TurnClient.Init` as an already decoded address.
- The `stunc_init`, `stunc_close`, `dns_init`, `stunc_init_udp` and `natbd_init` wiring is left out. `natbd_init` only stores pointers to the local address, server, transport and configuration, which travel on to the engines. `stunc_init_udp` is the `udpErr` parameter of `Client.Stunc.DnsHandler`.
- The build without getopt (src/main.c:522-534) is left out. That build fixes the server, UDP and the five basic tests, and reads no options. The model covers the getopt build only.
- The protocol library's defaults `STUN_DEFAULT_RTO` and `TURN_DEFAULT_LIFETIME` are parameters of `Options.Defaults`.
- The union's memory layout is assumed, not derived: one byte per bool, with the word read little-endian. Only "the word is zero exactly when no named flag is set" matters to the program, and that holds for any byte order.
- `Client.Stunc.StartIfRequested` and `Client.Stunc.ProtocolInit` have no C function of their own. They are the body of one `if (req.f.<probe>)` line and of the transport switch of `stun_dns_handler`, factored out so that each proof stays small.
- Turn.TurnClient.UdpRecv: returns the send request even when no loop socket exists, in which case the library's send would fail and only log. Whether a send succeeds is not modelled, since it changes no state.
- Turn.TurnClient.Handler: `addChanErr`, the result of the channel request, is only logged in the source and has no effect in the model.

Behaviour reproduced as the code has it:

- Under TCP, filtering and lifetime are never started and their flags stay set.
- A successful TURN allocation does not clear the relay flag.
- A successful ICE start never clears the ice flag.
- A UDP bind failure leaves every flag set.
- A packet from the relay side is sent to the loop source, which is the zero address until the first loop packet arrives. `udp_recv` never checks whether a loop packet has arrived, so before the first one it sends to the zero-initialised `loop_src` (src/turn.c:80).
- natbd.c calls `stunc_terminate_if_done`. The model treats it as the `terminate_if_done` of src/main.c:61-67, which is the only termination check declared (src/stunc.h:39).
