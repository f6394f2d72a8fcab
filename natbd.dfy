/**
 * NAT behaviour discovery (src/natbd.c): five probes (hairpinning, mapping,
 * filtering, binding lifetime and generic ALG detection), each with a start
 * routine that allocates and starts a protocol engine and a completion
 * handler that the engine calls back. The engines themselves belong to the
 * protocol library; here they are reduced to the errors their allocate and
 * start calls return and the payloads they hand to the handlers.
 */
module Natbd {
  import opened Net
  import opened Requests

  /** The probes this module owns. */
  predicate IsNatProbe(p: Probe) {
    p in {Hairpinning, Mapping, Filtering, Lifetime, GenericAlg}
  }

  /**
   * A start clears its flag when it got past the "already in progress"
   * guard and then either the allocation or the start failed.
   */
  predicate StartFails(held: bool, o: StartOutcome) {
    !held && (o.allocErr != 0 || o.startErr != 0)
  }

  /** The mapping and filtering classifications the engines report. */
  datatype NatType = Unknown | EndpointIndependent | AddressDependent | AddressPortDependent

  /** The lifetime engine's current search interval, in seconds. */
  datatype Interval = Interval(min: nat, cur: nat, max: nat)

  /** A lifetime callback ends the probe on an error or once the interval has converged. */
  predicate LifetimeDone(err: Errno, interval: Interval) {
    err != 0 || interval.min == interval.cur
  }

  /** The module's engine handles and the shared request set. */
  class NatBd {
    const reg: Registry
    var nh: bool
    var nm: bool
    var nf: bool
    var nl: bool
    var ga: bool

    constructor (reg: Registry)
      ensures this.reg == reg && Handles() == {}
    {
      this.reg := reg;
      nh, nm, nf, nl, ga := false, false, false, false, false;
    }

    /** The probes whose engine handle is stored. */
    function Handles(): (hs: set<Probe>)
      reads this
      ensures forall p :: p in hs ==> IsNatProbe(p)
    {
      (if nh then {Hairpinning} else {}) + (if nm then {Mapping} else {}) +
      (if nf then {Filtering} else {}) + (if nl then {Lifetime} else {}) +
      (if ga then {GenericAlg} else {})
    }

    /**
     * The handles after a start of probe p: a new one is stored when the
     * guard let the start through and the allocation succeeded, even if the
     * start itself then failed.
     */
    ghost function HandlesAfterStart(p: Probe, o: StartOutcome): set<Probe>
      reads this
    {
      if p in Handles() || o.allocErr != 0 then Handles() else Handles() + {p}
    }

    /** The request-set state after a start of probe p. */
    ghost function StateAfterStart(p: Probe, o: StartOutcome): RunState
      reads this, reg
    {
      if StartFails(p in Handles(), o) then Cleared(reg.State(), p) else reg.State()
    }

    method DoHairpinning(o: StartOutcome)
      modifies this, reg
      ensures Handles() == old(HandlesAfterStart(Hairpinning, o))
      ensures reg.State() == old(StateAfterStart(Hairpinning, o))
    {
      if nh {
        return;
      }
      if o.allocErr != 0 {
        reg.Clear(Hairpinning);
        return;
      }
      nh := true;
      if o.startErr != 0 {
        reg.Clear(Hairpinning);
      }
    }

    method DoMapping(o: StartOutcome)
      modifies this, reg
      ensures Handles() == old(HandlesAfterStart(Mapping, o))
      ensures reg.State() == old(StateAfterStart(Mapping, o))
    {
      if nm {
        return;
      }
      if o.allocErr != 0 {
        reg.Clear(Mapping);
        return;
      }
      nm := true;
      if o.startErr != 0 {
        reg.Clear(Mapping);
      }
    }

    method DoFiltering(o: StartOutcome)
      modifies this, reg
      ensures Handles() == old(HandlesAfterStart(Filtering, o))
      ensures reg.State() == old(StateAfterStart(Filtering, o))
    {
      if nf {
        return;
      }
      if o.allocErr != 0 {
        reg.Clear(Filtering);
        return;
      }
      nf := true;
      if o.startErr != 0 {
        reg.Clear(Filtering);
      }
    }

    method DoLifetime(o: StartOutcome)
      modifies this, reg
      ensures Handles() == old(HandlesAfterStart(Lifetime, o))
      ensures reg.State() == old(StateAfterStart(Lifetime, o))
    {
      if nl {
        return;
      }
      if o.allocErr != 0 {
        reg.Clear(Lifetime);
        return;
      }
      nl := true;
      if o.startErr != 0 {
        reg.Clear(Lifetime);
      }
    }

    /** Like the other four, except that the guard returns without a warning. */
    method DoGenAlg(o: StartOutcome)
      modifies this, reg
      ensures Handles() == old(HandlesAfterStart(GenericAlg, o))
      ensures reg.State() == old(StateAfterStart(GenericAlg, o))
    {
      if ga {
        return;
      }
      if o.allocErr != 0 {
        reg.Clear(GenericAlg);
        return;
      }
      ga := true;
      if o.startErr != 0 {
        reg.Clear(GenericAlg);
      }
    }

    /** The hairpinning result ends the probe, with or without an error. */
    method HairpinningHandler(err: Errno, supported: bool)
      modifies reg
      ensures reg.State() == Complete(old(reg.State()), Hairpinning)
    {
      reg.Clear(Hairpinning);
      reg.TerminateIfDone();
    }

    method MappingHandler(err: Errno, natType: NatType)
      modifies reg
      ensures reg.State() == Complete(old(reg.State()), Mapping)
    {
      reg.Clear(Mapping);
      reg.TerminateIfDone();
    }

    method FilteringHandler(err: Errno, natType: NatType)
      modifies reg
      ensures reg.State() == Complete(old(reg.State()), Filtering)
    {
      reg.Clear(Filtering);
      reg.TerminateIfDone();
    }

    /**
     * The lifetime engine calls back once per probing round. The probe ends
     * on an error or once min equals cur; when both hold it is ended twice,
     * which is the same as once.
     */
    method LifetimeHandler(err: Errno, interval: Interval)
      modifies reg
      ensures reg.State() ==
        if LifetimeDone(err, interval) then Complete(old(reg.State()), Lifetime) else old(reg.State())
    {
      if err != 0 {
        reg.Clear(Lifetime);
        reg.TerminateIfDone();
      }
      if interval.min == interval.cur {
        reg.Clear(Lifetime);
        reg.TerminateIfDone();
        if err != 0 {
          CompleteIdempotent(old(reg.State()), Lifetime);
        }
      }
    }

    /**
     * The generic ALG result ends the probe on a transaction error, on a
     * STUN error code and on success alike.
     */
    method GenAlgHandler(err: Errno, scode: nat, status: int, mapped: Addr)
      modifies reg
      ensures reg.State() == Complete(old(reg.State()), GenericAlg)
    {
      reg.Clear(GenericAlg);
      reg.TerminateIfDone();
    }

    /** Releases every handle. */
    method Close()
      modifies this
      ensures Handles() == {}
    {
      nm, nh, nf, nl, ga := false, false, false, false, false;
    }
  }
}
