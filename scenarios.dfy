/**
 * Whole runs, as the event loop would drive the handlers: a client is set up
 * with a request set and a transport, server resolution completes, and the
 * engines report back. Each scenario states how the run ends.
 */
module Scenarios {
  import opened Net
  import opened Requests
  import opened Client
  import Natbd
  import Turn

  /** A server address for the scenarios. */
  const Server: Addr := Addr(0xC0000201, 3478)

  /** Every engine's set-up succeeds. */
  function AllSucceed(): Probe -> StartOutcome {
    (p: Probe) => StartOutcome(0, 0)
  }

  /**
   * Only the mapping test is requested, over UDP, and its engine cannot be
   * allocated: the dispatch clears the only flag and the run ends at once.
   */
  method MappingAllocFailureEndsRun(allocErr: Errno) returns (cancelled: bool)
    requires allocErr != 0
    ensures cancelled
  {
    var c := new Stunc(NoRequests.(nm := true), Udp);
    var o := (p: Probe) => StartOutcome(allocErr, 0);
    DispatchEffect(c.Snap(), Udp, o);
    c.DnsHandler(0, Server, 0, o);
    assert forall p :: !c.reg.req.Get(p);
    cancelled := c.reg.cancelled;
  }

  /** Server resolution fails: every flag is dropped and the run ends. */
  method ResolutionFailureEndsRun(req: ReqSet, proto: Transport, err: Errno) returns (cancelled: bool)
    requires err != 0
    ensures cancelled
  {
    var c := new Stunc(req, proto);
    c.DnsHandler(err, Server, 0, AllSucceed());
    cancelled := c.reg.cancelled;
  }

  /**
   * Hairpinning and generic ALG detection over UDP: both start, the run goes
   * on after the first result and ends with the second.
   */
  method TwoProbesEndAfterBoth() returns (afterFirst: bool, afterSecond: bool)
    ensures !afterFirst && afterSecond
  {
    var c := new Stunc(NoRequests.(nh := true, ga := true), Udp);
    var o := AllSucceed();
    SuccessfulDispatchKeepsRequests(c.Snap(), Udp, o);
    c.DnsHandler(0, Server, 0, o);
    assert c.reg.State() == RunState(NoRequests.(nh := true, ga := true), false);
    c.natbd.HairpinningHandler(0, true);
    afterFirst := c.reg.cancelled;
    c.natbd.GenAlgHandler(0, 0, 0, Server);
    afterSecond := c.reg.cancelled;
  }

  /**
   * Filtering over TCP: the handler never starts it, so its flag stays set
   * and the run does not end on its own.
   */
  method TcpFilteringNeverEnds() returns (cancelled: bool, pending: bool)
    ensures !cancelled && pending
  {
    var c := new Stunc(NoRequests.(nf := true), Tcp);
    TcpLeavesFilteringAndLifetime(c.Snap(), AllSucceed());
    c.DnsHandler(0, Server, 0, AllSucceed());
    assert c.reg.req.Get(Filtering);
    cancelled, pending := c.reg.cancelled, c.reg.req.nf;
  }

  /**
   * The shared UDP socket cannot be bound: nothing is started, and with a
   * probe requested the flags stay set, so the run does not end.
   */
  method UdpBindFailureStartsNothing(udpErr: Errno) returns (cancelled: bool, pending: bool)
    requires udpErr != 0
    ensures !cancelled && pending
  {
    var c := new Stunc(NoRequests.(bd := true), Udp);
    c.DnsHandler(0, Server, udpErr, AllSucceed());
    assert c.reg.req.Get(BindingDiscovery);
    cancelled, pending := c.reg.cancelled, c.reg.req.bd;
  }

  /** With no transport chosen, starting the service fails before any query. */
  method NoTransportIsUnsupported(req: ReqSet) returns (err: Errno, queried: bool)
    ensures err == EPROTONOSUPPORT && !queried
  {
    var c := new Stunc(req, Unspecified);
    var q;
    err, q := c.StartService(0);
    queried := q.Some?;
  }

  /** A second mapped-address report after the first changes nothing. */
  method RepeatedBindingReportIsHarmless(req: ReqSet) returns (once: RunState, twice: RunState)
    ensures once == twice
    ensures !once.req.bd
  {
    var c := new Stunc(req, Udp);
    c.MappedAddrHandler(0, Server);
    once := c.reg.State();
    c.MappedAddrHandler(0, Server);
    twice := c.reg.State();
    CompleteIdempotent(RunState(req, false), BindingDiscovery);
  }

  /**
   * A successful allocation with a peer configured asks for a channel to
   * that peer and leaves the relay probe pending.
   */
  method AllocationBindsChannel(peer: Addr) returns (chan: Option<Addr>, pending: bool)
    requires IsSet(peer)
    ensures chan == Some(peer) && pending
  {
    var reg := new Registry(NoRequests.(ar := true));
    var t := new Turn.TurnClient(reg);
    var err := t.Init(None, None, peer, 0, 0, 0);
    t.Start(StartOutcome(0, 0));
    chan := t.Handler(0, 0, Server, Server, 0);
    pending := reg.req.ar;
  }

  /**
   * The loopback bridge: after two packets from different local sources,
   * a packet from the relay goes back to the second source, and a packet
   * from the loop socket goes out to the peer.
   */
  method LoopbackEchoesToLatestSource(peer: Addr, a: Addr, b: Addr, data: seq<bv8>)
    returns (toPeer: Option<Datagram>, back: Datagram)
    requires IsSet(peer)
    ensures toPeer == Some(Datagram(RelaySocket, peer, data))
    ensures back == Datagram(LoopSocket, b, data)
  {
    var reg := new Registry(NoRequests.(ar := true));
    var t := new Turn.TurnClient(reg);
    var err := t.Init(None, None, peer, 5000, 0, 0);
    t.Start(StartOutcome(0, 0));
    toPeer := t.UdpLoopRecv(a, data);
    toPeer := t.UdpLoopRecv(b, data);
    back := t.UdpRecv(Server, data);
  }

  /**
   * Before any packet has reached the loop socket, a packet from the relay
   * is sent to the zero address.
   */
  method RelayBeforeLoopGoesToZero(peer: Addr, data: seq<bv8>) returns (back: Datagram)
    ensures back.dst == ZeroAddr && back.via == LoopSocket
  {
    var reg := new Registry(NoRequests.(ar := true));
    var t := new Turn.TurnClient(reg);
    var err := t.Init(None, None, peer, 5000, 0, 0);
    back := t.UdpRecv(Server, data);
  }
  /**
   * The relay probe over UDP with a loop port configured: the dispatch
   * starts the TURN client and leaves the bridge as set up.
   */
  method RelayStartKeepsBridge(peer: Addr) returns (started: bool, bridgePeer: Addr, loopUp: bool, src: Addr)
    ensures started && bridgePeer == peer && loopUp && src == ZeroAddr
  {
    var c := new Stunc(NoRequests.(ar := true), Udp);
    var err := c.turn.Init(None, None, peer, 5000, 0, 0);
    var o := AllSucceed();
    DispatchEngines(c.Snap(), Udp, o);
    c.DnsHandler(0, Server, 0, o);
    started, bridgePeer, loopUp, src := c.turn.tc, c.turn.peer, c.turn.loopUs, c.turn.loopSrc;
  }

  /**
   * Hairpinning allocates its engine but cannot start it: the flag is
   * cleared and the handle kept, so a second start does nothing at all,
   * whatever its engine would have returned.
   */
  method FailedStartBlocksRetry(startErr: Errno, retry: StartOutcome)
    returns (first: RunState, held: bool, second: RunState, stillHeld: bool)
    requires startErr != 0
    ensures !first.req.nh && held
    ensures second == first && stillHeld
  {
    var reg := new Registry(NoRequests.(nh := true));
    var nbd := new Natbd.NatBd(reg);
    nbd.DoHairpinning(StartOutcome(0, startErr));
    first, held := reg.State(), Hairpinning in nbd.Handles();
    nbd.DoHairpinning(retry);
    second, stillHeld := reg.State(), Hairpinning in nbd.Handles();
  }

  /**
   * A second relay start while the first client exists allocates nothing
   * and clears the relay flag, unlike the NAT-behaviour guards.
   */
  method SecondRelayStartClears(retry: StartOutcome) returns (afterFirst: bool, afterSecond: bool)
    ensures afterFirst && !afterSecond
  {
    var reg := new Registry(NoRequests.(ar := true));
    var t := new Turn.TurnClient(reg);
    t.Start(StartOutcome(0, 0));
    afterFirst := reg.req.ar;
    t.Start(retry);
    afterSecond := reg.req.ar;
  }
}
