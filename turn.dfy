/**
 * The relay probe and its loopback bridge (src/turn.c). A relay-application
 * socket carries the TURN client's traffic; an optional loop socket stands in
 * for a peer on this host. Packets from the loop socket go out through the
 * relay allocation to the configured peer, and packets that come back on the
 * relay-application socket go to whoever last wrote to the loop socket. The
 * TURN client engine belongs to the protocol library and is reduced to the
 * error of its allocation and the payload of its callback.
 */
module Turn {
  import opened Net
  import opened Requests

  /**
   * A start clears the relay flag when a client already exists or when the
   * allocation fails. Unlike the NAT-behaviour probes, the guard clears too.
   */
  predicate StartFails(held: bool, o: StartOutcome) {
    held || o.allocErr != 0
  }

  class TurnClient {
    const reg: Registry
    /** The relay-application socket exists. */
    var us: bool
    /** The loop socket exists. */
    var loopUs: bool
    /** The TURN client handle exists. */
    var tc: bool
    var username: Option<string>
    var password: Option<string>
    /** The configured peer; the zero address when none was given. */
    var peer: Addr
    /** The source of the last packet seen on the loop socket. */
    var loopSrc: Addr

    constructor (reg: Registry)
      ensures this.reg == reg
      ensures !us && !loopUs && !tc
      ensures peer == ZeroAddr && loopSrc == ZeroAddr
    {
      this.reg := reg;
      us, loopUs, tc := false, false, false;
      username, password := None, None;
      peer, loopSrc := ZeroAddr, ZeroAddr;
    }

    /**
     * Stores the credentials and the peer, binds the relay-application
     * socket and, when a loop port is given, the loop socket. `listenErr`
     * and `loopListenErr` are what the two binds return; a bind that fails
     * leaves its socket as it was. The first error is returned.
     */
    method Init(username: Option<string>, password: Option<string>, peer: Addr,
                loopPort: nat, listenErr: Errno, loopListenErr: Errno) returns (err: Errno)
      modifies this
      ensures this.username == username && this.password == password && this.peer == peer
      ensures us == (old(us) || listenErr == 0)
      ensures loopUs == (old(loopUs) || (listenErr == 0 && loopPort != 0 && loopListenErr == 0))
      ensures err == if listenErr != 0 then listenErr else if loopPort != 0 then loopListenErr else 0
      ensures tc == old(tc) && loopSrc == old(loopSrc)
    {
      this.username := username;
      this.password := password;
      this.peer := peer;
      err := listenErr;
      if err != 0 {
        return;
      }
      us := true;
      if loopPort != 0 {
        err := loopListenErr;
        if err != 0 {
          return;
        }
        loopUs := true;
      }
    }

    /**
     * Starts the relay probe. The configuration, transport, server and
     * lifetime only travel on to the engine, so they are not parameters
     * here; `o.allocErr` is what the client allocation returns.
     */
    method Start(o: StartOutcome)
      modifies this`tc, reg
      ensures tc == (old(tc) || o.allocErr == 0)
      ensures reg.State() ==
        if StartFails(old(tc), o) then Cleared(old(reg.State()), Relay) else old(reg.State())
    {
      if tc {
        reg.Clear(Relay);
        return;
      }
      if o.allocErr != 0 {
        reg.Clear(Relay);
        return;
      }
      tc := true;
    }

    /** Ends the relay probe. */
    method Done()
      modifies reg
      ensures reg.State() == Complete(old(reg.State()), Relay)
    {
      reg.Clear(Relay);
      reg.TerminateIfDone();
    }

    /**
     * The TURN client's callback. A transaction error or a STUN error code
     * ends the probe. A successful allocation does not: it only requests a
     * channel binding for the peer, when one is set, and returns that
     * request; `addChanErr`, what the request returns, is only logged.
     */
    method Handler(err: Errno, scode: nat, relay: Addr, mapped: Addr, addChanErr: Errno)
      returns (chan: Option<Addr>)
      modifies reg
      ensures err != 0 || scode != 0 ==>
        reg.State() == Complete(old(reg.State()), Relay) && chan == None
      ensures err == 0 && scode == 0 ==>
        reg.State() == old(reg.State()) && chan == (if IsSet(peer) then Some(peer) else None)
    {
      chan := None;
      if err != 0 {
        Done();
        return;
      }
      if scode != 0 {
        Done();
        return;
      }
      if IsSet(peer) {
        chan := Some(peer);
      }
    }

    /**
     * A packet on the relay-application socket is handed, unchanged, to the
     * loop socket for the last loop source seen (the zero address if none
     * was). Whether that send succeeds changes nothing.
     */
    method UdpRecv(src: Addr, payload: seq<bv8>) returns (sent: Datagram)
      ensures sent.via == LoopSocket && sent.dst == loopSrc && sent.payload == payload
    {
      sent := Datagram(LoopSocket, loopSrc, payload);
    }

    /**
     * A packet on the loop socket first becomes the new loop source. It is
     * then sent, unchanged, to the peer through the relay-application socket
     * if a TURN client exists and a peer is set; otherwise nothing is sent.
     */
    method UdpLoopRecv(src: Addr, payload: seq<bv8>) returns (sent: Option<Datagram>)
      modifies this`loopSrc
      ensures loopSrc == src
      ensures sent.Some? <==> tc && IsSet(peer)
      ensures sent.Some? ==> sent.value == Datagram(RelaySocket, peer, payload)
    {
      loopSrc := src;
      if !tc {
        return None;
      }
      if !IsSet(peer) {
        return None;
      }
      sent := Some(Datagram(RelaySocket, peer, payload));
    }

    /** Releases the client and both sockets. */
    method Close()
      modifies this`tc, this`us, this`loopUs
      ensures !tc && !us && !loopUs
    {
      tc := false;
      us := false;
      loopUs := false;
    }
  }
}
