/**
 * The orchestration of a run (src/main.c): choose the discovery service from
 * the request set, resolve the server, then start every requested probe in a
 * fixed order against the shared socket and server address, and end the run
 * once no probe is left pending.
 */
module Client {
  import opened Net
  import opened Requests
  import Natbd
  import Turn

  /** The STUN usage asked of server discovery. */
  datatype Service = BindingUsage | RelayUsage | BehaviourUsage

  /**
   * The discovery service for a request set: ICE wins, then the relay probe,
   * then binding discovery; the NAT-behaviour probes alone use the
   * behaviour-discovery service.
   */
  function ServiceFor(r: ReqSet): (s: Service)
    ensures s == RelayUsage <==> r.ar && !r.ice
    ensures s == BehaviourUsage <==> !r.ice && !r.ar && !r.bd
    ensures s == BindingUsage <==> r.ice || (r.bd && !r.ar)
  {
    if r.ice then BindingUsage
    else if r.ar then RelayUsage
    else if r.bd then BindingUsage
    else BehaviourUsage
  }

  /** A server-discovery query: the service and the transport it is for. */
  datatype Query = Query(service: Service, transport: Transport)

  /** Whether a probe's start routine clears its flag. */
  predicate StartClears(p: Probe, held: bool, o: StartOutcome) {
    match p
    case BindingDiscovery => o.allocErr != 0
    case Ice => o.allocErr != 0
    case Relay => Turn.StartFails(held, o)
    case _ => Natbd.StartFails(held, o)
  }

  /**
   * What the start routines read and write: the request set, the stored
   * NAT-behaviour handles, the TURN client handle and the keepalive.
   */
  datatype Snapshot = Snapshot(req: ReqSet, handles: set<Probe>, tc: bool, ska: bool)

  /** Whether a start of p finds its engine already running. */
  predicate HeldIn(s: Snapshot, p: Probe) {
    if p == Relay then s.tc else p in s.handles
  }

  /** The effect of one start routine. */
  function StartStep(s: Snapshot, p: Probe, o: StartOutcome): (t: Snapshot)
    ensures t.req.Get(p) == (s.req.Get(p) && !StartClears(p, HeldIn(s, p), o))
    ensures forall q :: q != p ==> t.req.Get(q) == s.req.Get(q)
  {
    var req := if StartClears(p, HeldIn(s, p), o) then s.req.Set(p, false) else s.req;
    match p
    case BindingDiscovery => s.(req := req, ska := s.ska || o.allocErr == 0)
    case Ice => s.(req := req)
    case Relay => s.(req := req, tc := s.tc || o.allocErr == 0)
    case _ => s.(req := req, handles := if p in s.handles || o.allocErr != 0 then s.handles else s.handles + {p})
  }

  /** Start routines run one after another. */
  function StartSteps(s: Snapshot, ps: seq<Probe>, o: Probe -> StartOutcome): Snapshot
    decreases |ps|
  {
    if ps == [] then s
    else StartStep(StartSteps(s, ps[..|ps| - 1], o), ps[|ps| - 1], o(ps[|ps| - 1]))
  }

  lemma StartStepsSnoc(s: Snapshot, ps: seq<Probe>, p: Probe, o: Probe -> StartOutcome)
    ensures StartSteps(s, ps + [p], o) == StartStep(StartSteps(s, ps, o), p, o(p))
  {
    assert (ps + [p])[..|ps|] == ps;
  }

  /** A series of starts that does not include p leaves p's flag and engine alone. */
  lemma {:induction false} StartStepsUntouched(s: Snapshot, ps: seq<Probe>, o: Probe -> StartOutcome, p: Probe)
    requires p !in ps
    ensures StartSteps(s, ps, o).req.Get(p) == s.req.Get(p)
    ensures HeldIn(StartSteps(s, ps, o), p) == HeldIn(s, p)
    decreases |ps|
  {
    if ps != [] {
      var init := ps[..|ps| - 1];
      assert forall q :: q in init ==> q in ps;
      StartStepsUntouched(s, init, o, p);
    }
  }

  /**
   * Starting distinct probes one after another: each one's flag is cleared
   * exactly when its own start fails against the state before the series;
   * every other flag keeps its value.
   */
  lemma {:induction false} StartStepsEffect(s: Snapshot, ps: seq<Probe>, o: Probe -> StartOutcome)
    requires forall i, j :: 0 <= i < j < |ps| ==> ps[i] != ps[j]
    ensures forall p :: (StartSteps(s, ps, o).req.Get(p) <==>
                         s.req.Get(p) && !(p in ps && StartClears(p, HeldIn(s, p), o(p))))
    decreases |ps|
  {
    if ps != [] {
      var init, last := ps[..|ps| - 1], ps[|ps| - 1];
      StartStepsEffect(s, init, o);
      assert last !in init by {
        forall k | 0 <= k < |init| ensures init[k] != last {
          assert init[k] == ps[k];
        }
      }
      assert forall p :: p in ps <==> p in init || p == last;
      StartStepsUntouched(s, init, o, last);
    }
  }

  /**
   * The engines a series of starts leaves behind: a NAT-behaviour handle for
   * every such probe started whose allocation succeeded, the TURN client if
   * the relay probe's did, the keepalive if binding discovery's did.
   */
  lemma {:induction false} StartStepsEngines(s: Snapshot, ps: seq<Probe>, o: Probe -> StartOutcome)
    ensures forall p :: (p in StartSteps(s, ps, o).handles <==>
                         p in s.handles || (p in ps && Natbd.IsNatProbe(p) && o(p).allocErr == 0))
    ensures StartSteps(s, ps, o).tc == (s.tc || (Relay in ps && o(Relay).allocErr == 0))
    ensures StartSteps(s, ps, o).ska == (s.ska || (BindingDiscovery in ps && o(BindingDiscovery).allocErr == 0))
    decreases |ps|
  {
    if ps != [] {
      var init := ps[..|ps| - 1];
      StartStepsEngines(s, init, o);
      assert forall p :: p in ps <==> p in init || p == ps[|ps| - 1];
    }
  }

  /** The one-probe piece of a dispatch: the probe if its flag is set. */
  function IfRequested(r: ReqSet, p: Probe): (ps: seq<Probe>)
    ensures forall q :: q in ps <==> q == p && r.Get(p)
  {
    if r.Get(p) then [p] else []
  }

  /**
   * The order in which the DNS handler tests the flags and starts the
   * probes: under UDP every probe in field order, under TCP the same
   * without filtering and lifetime, with no transport none.
   */
  function DispatchOrder(proto: Transport): seq<Probe> {
    match proto
    case Udp => [BindingDiscovery, Hairpinning, Mapping, Filtering, Lifetime, GenericAlg, Relay, Ice]
    case Tcp => [BindingDiscovery, Hairpinning, Mapping, GenericAlg, Relay, Ice]
    case Unspecified => []
  }

  /** Whether a transport dispatches a probe at all. */
  predicate DispatchesUnder(proto: Transport, p: Probe) {
    proto == Udp || (proto == Tcp && p != Filtering && p != Lifetime)
  }

  /** The ranks strictly increase along a sequence of probes. */
  ghost predicate Increasing(s: seq<Probe>) {
    forall i, j :: 0 <= i < j < |s| ==> Rank(s[i]) < Rank(s[j])
  }

  /** Each transport's order holds exactly the probes it dispatches, in field order. */
  lemma DispatchOrderShape(proto: Transport)
    ensures forall p :: p in DispatchOrder(proto) <==> DispatchesUnder(proto, p)
    ensures Increasing(DispatchOrder(proto))
  {
    var order := DispatchOrder(proto);
    forall p ensures p in order <==> DispatchesUnder(proto, p) {
      match p
      case BindingDiscovery => assert proto != Unspecified ==> order[0] == p;
      case Hairpinning => assert proto != Unspecified ==> order[1] == p;
      case Mapping => assert proto != Unspecified ==> order[2] == p;
      case Filtering => assert proto == Udp ==> order[3] == p;
      case Lifetime => assert proto == Udp ==> order[4] == p;
      case GenericAlg => assert proto == Udp ==> order[5] == p;
                         assert proto == Tcp ==> order[3] == p;
      case Relay => assert proto == Udp ==> order[6] == p;
                    assert proto == Tcp ==> order[4] == p;
      case Ice => assert proto == Udp ==> order[7] == p;
                  assert proto == Tcp ==> order[5] == p;
    }
    forall i, j | 0 <= i < j < |order| ensures Rank(order[i]) < Rank(order[j]) {
      match proto
      case Udp =>
      case Tcp =>
      case Unspecified =>
    }
  }

  /** The probes of an order whose flag is set, in that order. */
  function Requested(order: seq<Probe>, r: ReqSet): seq<Probe>
    decreases |order|
  {
    if order == [] then []
    else Requested(order[..|order| - 1], r) + IfRequested(r, order[|order| - 1])
  }

  /** A probe is in the dispatch exactly when it is in the order and requested. */
  lemma {:induction false} RequestedMembers(order: seq<Probe>, r: ReqSet)
    ensures forall p :: p in Requested(order, r) <==> p in order && r.Get(p)
    decreases |order|
  {
    if order != [] {
      var init := order[..|order| - 1];
      RequestedMembers(init, r);
      assert order == init + [order[|order| - 1]];
    }
  }

  /** Dropping the unrequested probes keeps an increasing order increasing. */
  lemma {:induction false} RequestedIncreasing(order: seq<Probe>, r: ReqSet)
    requires Increasing(order)
    ensures Increasing(Requested(order, r))
    decreases |order|
  {
    if order != [] {
      var init, last := order[..|order| - 1], order[|order| - 1];
      assert Increasing(init) by {
        forall i, j | 0 <= i < j < |init| ensures Rank(init[i]) < Rank(init[j]) {
          assert init[i] == order[i] && init[j] == order[j];
        }
      }
      RequestedIncreasing(init, r);
      RequestedMembers(init, r);
      var head := Requested(init, r);
      forall q | q in head ensures Rank(q) < Rank(last) {
        var k :| 0 <= k < |init| && init[k] == q;
        assert order[k] == q;
      }
      var t := head + IfRequested(r, last);
      forall i, j | 0 <= i < j < |t| ensures Rank(t[i]) < Rank(t[j]) {
        if j >= |head| {
          assert t[i] in head;
        }
      }
    }
  }

  /** One line of the dispatch: start p if its flag is set at that moment. */
  function StartIf(s: Snapshot, p: Probe, o: Probe -> StartOutcome): Snapshot {
    if s.req.Get(p) then StartStep(s, p, o(p)) else s
  }

  /** The lines of a dispatch run one after another. */
  function RunLines(s: Snapshot, order: seq<Probe>, o: Probe -> StartOutcome): Snapshot
    decreases |order|
  {
    if order == [] then s
    else StartIf(RunLines(s, order[..|order| - 1], o), order[|order| - 1], o)
  }

  lemma RunLinesSnoc(s: Snapshot, order: seq<Probe>, p: Probe, o: Probe -> StartOutcome)
    ensures RunLines(s, order + [p], o) == StartIf(RunLines(s, order, o), p, o)
  {
    assert (order + [p])[..|order|] == order;
  }

  /**
   * One line after a series of lower-ranked probes: testing p's flag then is
   * the same as testing it before the series.
   */
  lemma DispatchLine(s: Snapshot, pre: seq<Probe>, p: Probe, o: Probe -> StartOutcome)
    requires forall q :: q in pre ==> Rank(q) < Rank(p)
    ensures StartIf(StartSteps(s, pre, o), p, o) == StartSteps(s, pre + IfRequested(s.req, p), o)
  {
    StartStepsUntouched(s, pre, o, p);
    if s.req.Get(p) {
      StartStepsSnoc(s, pre, p, o);
    } else {
      assert pre + [] == pre;
    }
  }

  /**
   * Testing each flag just before its start, in an increasing order, starts
   * exactly the probes of the order that were requested when the dispatch
   * began.
   */
  lemma {:induction false} RunLinesIsSteps(s: Snapshot, order: seq<Probe>, o: Probe -> StartOutcome)
    requires Increasing(order)
    ensures RunLines(s, order, o) == StartSteps(s, Requested(order, s.req), o)
    decreases |order|
  {
    if order != [] {
      var init, last := order[..|order| - 1], order[|order| - 1];
      assert Increasing(init) by {
        forall i, j | 0 <= i < j < |init| ensures Rank(init[i]) < Rank(init[j]) {
          assert init[i] == order[i] && init[j] == order[j];
        }
      }
      RunLinesIsSteps(s, init, o);
      RequestedMembers(init, s.req);
      forall q | q in Requested(init, s.req) ensures Rank(q) < Rank(last) {
        var k :| 0 <= k < |init| && init[k] == q;
        assert order[k] == q;
      }
      DispatchLine(s, Requested(init, s.req), last, o);
    }
  }

  /**
   * The whole dispatch of the DNS handler: a flag is cleared exactly when
   * its probe is requested, dispatched under the transport and its start
   * fails against the state before the dispatch; every other flag keeps
   * its value.
   */
  lemma DispatchEffect(s: Snapshot, proto: Transport, o: Probe -> StartOutcome)
    ensures forall p :: (RunLines(s, DispatchOrder(proto), o).req.Get(p) <==>
                         s.req.Get(p) && !(DispatchesUnder(proto, p) && StartClears(p, HeldIn(s, p), o(p))))
  {
    var order := DispatchOrder(proto);
    var ps := Requested(order, s.req);
    DispatchOrderShape(proto);
    RunLinesIsSteps(s, order, o);
    RequestedMembers(order, s.req);
    RequestedIncreasing(order, s.req);
    forall i, j | 0 <= i < j < |ps| ensures ps[i] != ps[j] {
      assert Rank(ps[i]) < Rank(ps[j]);
    }
    StartStepsEffect(s, ps, o);
  }

  /**
   * The engines the dispatch leaves behind: a NAT-behaviour handle for each
   * such probe requested, dispatched under the transport and allocated;
   * the TURN client and the keepalive likewise.
   */
  lemma DispatchEngines(s: Snapshot, proto: Transport, o: Probe -> StartOutcome)
    ensures forall p :: (p in RunLines(s, DispatchOrder(proto), o).handles <==>
                         p in s.handles ||
                         (s.req.Get(p) && DispatchesUnder(proto, p) && Natbd.IsNatProbe(p) && o(p).allocErr == 0))
    ensures RunLines(s, DispatchOrder(proto), o).tc ==
      (s.tc || (s.req.ar && DispatchesUnder(proto, Relay) && o(Relay).allocErr == 0))
    ensures RunLines(s, DispatchOrder(proto), o).ska ==
      (s.ska || (s.req.bd && DispatchesUnder(proto, BindingDiscovery) && o(BindingDiscovery).allocErr == 0))
  {
    var order := DispatchOrder(proto);
    DispatchOrderShape(proto);
    RunLinesIsSteps(s, order, o);
    RequestedMembers(order, s.req);
    StartStepsEngines(s, Requested(order, s.req), o);
  }

  /** Under TCP the filtering and lifetime probes stay pending after the dispatch. */
  lemma TcpLeavesFilteringAndLifetime(s: Snapshot, o: Probe -> StartOutcome)
    ensures RunLines(s, DispatchOrder(Tcp), o).req.nf == s.req.nf
    ensures RunLines(s, DispatchOrder(Tcp), o).req.nl == s.req.nl
  {
    var t := RunLines(s, DispatchOrder(Tcp), o);
    DispatchEffect(s, Tcp, o);
    assert t.req.Get(Filtering) == s.req.Get(Filtering);
    assert t.req.Get(Lifetime) == s.req.Get(Lifetime);
  }

  /**
   * When every engine's set-up succeeds and no TURN client is held yet, the
   * dispatch clears no flag: every dispatched probe stays pending until its
   * engine reports.
   */
  lemma SuccessfulDispatchKeepsRequests(s: Snapshot, proto: Transport, o: Probe -> StartOutcome)
    requires forall p :: o(p).allocErr == 0 && o(p).startErr == 0
    requires !s.tc
    ensures RunLines(s, DispatchOrder(proto), o).req == s.req
  {
    DispatchEffect(s, proto, o);
    forall p ensures !StartClears(p, HeldIn(s, p), o(p)) {
      assert o(p).allocErr == 0 && o(p).startErr == 0;
    }
    GetDetermines(RunLines(s, DispatchOrder(proto), o).req, s.req);
  }

  /** The main module's state together with the two modules it drives. */
  class Stunc {
    const reg: Registry
    const natbd: Natbd.NatBd
    const turn: Turn.TurnClient
    var proto: Transport
    /** The resolved server address. */
    var srv: Addr
    /** The shared UDP socket exists. */
    var us: bool
    /** The binding-discovery keepalive exists. */
    var ska: bool
    /** A server-discovery query is outstanding. */
    var dns: bool

    /** All three modules share one request set. */
    ghost predicate Valid() {
      natbd.reg == reg && turn.reg == reg
    }

    constructor (req: ReqSet, proto: Transport)
      ensures Valid() && fresh(reg) && fresh(natbd) && fresh(turn)
      ensures reg.State() == RunState(req, false) && this.proto == proto
      ensures natbd.Handles() == {} && !turn.tc && !turn.us && !turn.loopUs
      ensures turn.peer == ZeroAddr && turn.loopSrc == ZeroAddr
      ensures !us && !ska && !dns
    {
      var r := new Registry(req);
      reg := r;
      natbd := new Natbd.NatBd(r);
      turn := new Turn.TurnClient(r);
      this.proto := proto;
      srv := ZeroAddr;
      us, ska, dns := false, false, false;
    }

    /** The part of the state the start routines read and write. */
    ghost function Snap(): Snapshot
      reads this, reg, natbd, turn
    {
      Snapshot(reg.req, natbd.Handles(), turn.tc, ska)
    }

    /**
     * Chooses the discovery service and transport and issues the query.
     * Without a transport it fails with EPROTONOSUPPORT before any query;
     * otherwise it returns what the discovery call returns.
     */
    method StartService(discoverErr: Errno) returns (err: Errno, query: Option<Query>)
      modifies this`dns
      ensures proto == Unspecified ==> err == EPROTONOSUPPORT && query == None && dns == old(dns)
      ensures proto != Unspecified ==>
        err == discoverErr && query == Some(Query(ServiceFor(reg.req), proto)) &&
        dns == (old(dns) || discoverErr == 0)
    {
      var service := ServiceFor(reg.req);
      if proto == Unspecified {
        return EPROTONOSUPPORT, None;
      }
      query := Some(Query(service, proto));
      err := discoverErr;
      if err == 0 {
        dns := true;
      }
    }

    /** The keepalive's mapped-address report ends binding discovery, with or without an error. */
    method MappedAddrHandler(err: Errno, mapped: Addr)
      modifies reg
      ensures reg.State() == Complete(old(reg.State()), BindingDiscovery)
    {
      reg.Clear(BindingDiscovery);
      reg.TerminateIfDone();
    }

    /** Starts binding discovery; only an allocation failure clears its flag. */
    method DoBinDisc(o: StartOutcome)
      modifies this`ska, reg
      ensures ska == (old(ska) || o.allocErr == 0)
      ensures reg.State() ==
        if o.allocErr != 0 then Cleared(old(reg.State()), BindingDiscovery) else old(reg.State())
    {
      if o.allocErr != 0 {
        reg.Clear(BindingDiscovery);
        return;
      }
      ska := true;
    }

    /** Starts the ICE test; only its failure clears the flag, nothing else ever does. */
    method DoIce(o: StartOutcome)
      modifies reg
      ensures reg.State() ==
        if o.allocErr != 0 then Cleared(old(reg.State()), Ice) else old(reg.State())
    {
      if o.allocErr != 0 {
        reg.Clear(Ice);
      }
    }

    /**
     * One line of the dispatch: if probe p's flag is set, run p's start
     * routine.
     */
    method StartIfRequested(p: Probe, o: Probe -> StartOutcome)
      requires Valid()
      modifies this`ska, reg, natbd, turn`tc
      ensures Snap() == StartIf(old(Snap()), p, o)
      ensures reg.cancelled == old(reg.cancelled)
    {
      if reg.req.Get(p) {
        match p
        case BindingDiscovery => DoBinDisc(o(BindingDiscovery));
        case Hairpinning => natbd.DoHairpinning(o(Hairpinning));
        case Mapping => natbd.DoMapping(o(Mapping));
        case Filtering => natbd.DoFiltering(o(Filtering));
        case Lifetime => natbd.DoLifetime(o(Lifetime));
        case GenericAlg => natbd.DoGenAlg(o(GenericAlg));
        case Relay => turn.Start(o(Relay));
        case Ice => DoIce(o(Ice));
      }
    }

    /** The UDP branch of the dispatch: every requested probe, in field order. */
    method DispatchUdp(o: Probe -> StartOutcome)
      requires Valid()
      modifies this`ska, reg, natbd, turn`tc
      ensures Snap() == RunLines(old(Snap()), DispatchOrder(Udp), o)
      ensures reg.cancelled == old(reg.cancelled)
    {
      ghost var s0 := Snap();
      ghost var lines: seq<Probe> := [];
      StartIfRequested(BindingDiscovery, o);
      RunLinesSnoc(s0, lines, BindingDiscovery, o);
      lines := lines + [BindingDiscovery];
      StartIfRequested(Hairpinning, o);
      RunLinesSnoc(s0, lines, Hairpinning, o);
      lines := lines + [Hairpinning];
      StartIfRequested(Mapping, o);
      RunLinesSnoc(s0, lines, Mapping, o);
      lines := lines + [Mapping];
      StartIfRequested(Filtering, o);
      RunLinesSnoc(s0, lines, Filtering, o);
      lines := lines + [Filtering];
      StartIfRequested(Lifetime, o);
      RunLinesSnoc(s0, lines, Lifetime, o);
      lines := lines + [Lifetime];
      StartIfRequested(GenericAlg, o);
      RunLinesSnoc(s0, lines, GenericAlg, o);
      lines := lines + [GenericAlg];
      StartIfRequested(Relay, o);
      RunLinesSnoc(s0, lines, Relay, o);
      lines := lines + [Relay];
      StartIfRequested(Ice, o);
      RunLinesSnoc(s0, lines, Ice, o);
      lines := lines + [Ice];
      assert lines == DispatchOrder(Udp);
    }

    /** The TCP branch of the dispatch: filtering and lifetime are not started. */
    method DispatchTcp(o: Probe -> StartOutcome)
      requires Valid()
      modifies this`ska, reg, natbd, turn`tc
      ensures Snap() == RunLines(old(Snap()), DispatchOrder(Tcp), o)
      ensures reg.cancelled == old(reg.cancelled)
    {
      ghost var s0 := Snap();
      ghost var lines: seq<Probe> := [];
      StartIfRequested(BindingDiscovery, o);
      RunLinesSnoc(s0, lines, BindingDiscovery, o);
      lines := lines + [BindingDiscovery];
      StartIfRequested(Hairpinning, o);
      RunLinesSnoc(s0, lines, Hairpinning, o);
      lines := lines + [Hairpinning];
      StartIfRequested(Mapping, o);
      RunLinesSnoc(s0, lines, Mapping, o);
      lines := lines + [Mapping];
      StartIfRequested(GenericAlg, o);
      RunLinesSnoc(s0, lines, GenericAlg, o);
      lines := lines + [GenericAlg];
      StartIfRequested(Relay, o);
      RunLinesSnoc(s0, lines, Relay, o);
      lines := lines + [Relay];
      StartIfRequested(Ice, o);
      RunLinesSnoc(s0, lines, Ice, o);
      lines := lines + [Ice];
      assert lines == DispatchOrder(Tcp);
    }

    /**
     * The transport switch of the DNS handler: under UDP the shared socket
     * is bound (`udpErr`) and, if that worked, the UDP dispatch runs; under
     * TCP the TCP dispatch runs; otherwise nothing happens.
     */
    method ProtocolInit(udpErr: Errno, o: Probe -> StartOutcome)
      requires Valid()
      modifies this`us, this`ska, reg, natbd, turn`tc
      ensures proto == Udp && udpErr != 0 ==> Snap() == old(Snap())
      ensures !(proto == Udp && udpErr != 0) ==> Snap() == RunLines(old(Snap()), DispatchOrder(proto), o)
      ensures us == (old(us) || (proto == Udp && udpErr == 0))
      ensures reg.cancelled == old(reg.cancelled)
    {
      match proto
      case Udp =>
        if udpErr == 0 {
          us := true;
          DispatchUdp(o);
        }
      case Tcp =>
        DispatchTcp(o);
      case Unspecified =>
        assert DispatchOrder(proto) == [];
    }

    /**
     * Server resolution has finished. On an error every flag is cleared.
     * Otherwise the address is stored; under UDP the shared socket is bound
     * first (`udpErr`), and a bind failure starts nothing. Then each
     * requested probe is started in dispatch order, with `o` giving what its
     * engine's set-up calls return. In every case the query is released and
     * termination is checked once.
     */
    method DnsHandler(err: Errno, addr: Addr, udpErr: Errno, o: Probe -> StartOutcome)
      requires Valid()
      modifies this, reg, natbd, turn`tc
      ensures Valid() && proto == old(proto)
      ensures err != 0 ==> Snap() == old(Snap()).(req := NoRequests)
      ensures err == 0 && proto == Udp && udpErr != 0 ==> Snap() == old(Snap())
      ensures err == 0 && !(proto == Udp && udpErr != 0) ==>
        Snap() == RunLines(old(Snap()), DispatchOrder(proto), o)
      ensures srv == if err == 0 then addr else old(srv)
      ensures reg.cancelled == (old(reg.cancelled) || reg.req.Idle())
      ensures us == (old(us) || (err == 0 && proto == Udp && udpErr == 0))
      ensures !dns
    {
      if err != 0 {
        reg.ClearAll();
      } else {
        srv := addr;
        ProtocolInit(udpErr, o);
      }
      dns := false;
      ghost var s1 := Snap();
      reg.TerminateIfDone();
      assert Snap() == s1;
    }
  }
}
