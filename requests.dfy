/**
 * The request set of the STUN client: one flag per probe kind, shared by the
 * main, NAT-behaviour and TURN modules, and the termination check that ends
 * the run once no flag is left.
 */
module Requests {

  /** The eight probe kinds, one per field of the request set. */
  datatype Probe =
    | BindingDiscovery
    | Hairpinning
    | Mapping
    | Filtering
    | Lifetime
    | GenericAlg
    | Relay
    | Ice

  /** The probe kinds in the order of the request set's fields. */
  const AllProbes: seq<Probe> :=
    [BindingDiscovery, Hairpinning, Mapping, Filtering, Lifetime, GenericAlg, Relay, Ice]

  /** The position of a probe's field in the request set. */
  function Rank(p: Probe): (k: nat)
    ensures k < |AllProbes| && AllProbes[k] == p
  {
    match p
    case BindingDiscovery => 0
    case Hairpinning => 1
    case Mapping => 2
    case Filtering => 3
    case Lifetime => 4
    case GenericAlg => 5
    case Relay => 6
    case Ice => 7
  }

  /** No probe kind occupies two fields, and every kind has one. */
  lemma AllProbesDistinct()
    ensures |AllProbes| == 8
    ensures forall i, j :: 0 <= i < j < |AllProbes| ==> AllProbes[i] != AllProbes[j]
    ensures forall p :: p in AllProbes
  {
    forall i, j | 0 <= i < j < |AllProbes|
      ensures AllProbes[i] != AllProbes[j]
    {
      assert Rank(AllProbes[i]) == i && Rank(AllProbes[j]) == j;
    }
    forall p ensures p in AllProbes {
      assert AllProbes[Rank(p)] == p;
    }
  }

  /**
   * The request set: a flag is true while its probe was requested and has
   * not yet been declared done.
   */
  datatype ReqSet = ReqSet(bd: bool, nh: bool, nm: bool, nf: bool,
                           nl: bool, ga: bool, ar: bool, ice: bool)
  {
    function Get(p: Probe): bool {
      match p
      case BindingDiscovery => bd
      case Hairpinning => nh
      case Mapping => nm
      case Filtering => nf
      case Lifetime => nl
      case GenericAlg => ga
      case Relay => ar
      case Ice => ice
    }

    /** Writes one named flag. */
    function Set(p: Probe, v: bool): (r: ReqSet)
      ensures forall q :: r.Get(q) == if q == p then v else Get(q)
    {
      match p
      case BindingDiscovery => this.(bd := v)
      case Hairpinning => this.(nh := v)
      case Mapping => this.(nm := v)
      case Filtering => this.(nf := v)
      case Lifetime => this.(nl := v)
      case GenericAlg => this.(ga := v)
      case Relay => this.(ar := v)
      case Ice => this.(ice := v)
    }

    /** No probe is pending. */
    ghost predicate Idle() {
      forall p :: !Get(p)
    }

    /** The flags, one byte each (0 or 1), in field order. */
    function Bytes(): (bs: seq<nat>)
      ensures |bs| == |AllProbes| && AreBytes(bs)
      ensures forall i | 0 <= i < |bs| :: bs[i] <= 1
    {
      [Byte(bd), Byte(nh), Byte(nm), Byte(nf), Byte(nl), Byte(ga), Byte(ar), Byte(ice)]
    }

    /**
     * The whole-word view of the union: the eight flag bytes read as one
     * 64-bit little-endian word.
     */
    function Flags(): nat {
      LittleEndian(Bytes())
    }
  }

  /** A request set is determined by which probes it holds. */
  lemma GetDetermines(a: ReqSet, b: ReqSet)
    requires forall p :: a.Get(p) == b.Get(p)
    ensures a == b
  {
    assert a.Get(BindingDiscovery) == b.Get(BindingDiscovery) && a.Get(Hairpinning) == b.Get(Hairpinning);
    assert a.Get(Mapping) == b.Get(Mapping) && a.Get(Filtering) == b.Get(Filtering);
    assert a.Get(Lifetime) == b.Get(Lifetime) && a.Get(GenericAlg) == b.Get(GenericAlg);
    assert a.Get(Relay) == b.Get(Relay) && a.Get(Ice) == b.Get(Ice);
  }

  function Byte(b: bool): nat {
    if b then 1 else 0
  }

  /** The empty request set, which is what `flags = 0` leaves. */
  const NoRequests: ReqSet := ReqSet(false, false, false, false, false, false, false, false)

  function Pow256(n: nat): (r: nat)
    ensures r >= 1
  {
    if n == 0 then 1 else 256 * Pow256(n - 1)
  }

  predicate AreBytes(bs: seq<nat>) {
    forall i :: 0 <= i < |bs| ==> bs[i] < 256
  }

  /** Bytes packed into a word, least significant first. */
  function LittleEndian(bs: seq<nat>): nat {
    if bs == [] then 0 else bs[0] + 256 * LittleEndian(bs[1..])
  }

  /** The first n bytes of a word, least significant first. */
  function Unpack(w: nat, n: nat): (bs: seq<nat>)
    ensures |bs| == n && AreBytes(bs)
  {
    if n == 0 then [] else [w % 256] + Unpack(w / 256, n - 1)
  }

  /** Reads the flags back out of a whole word: a byte that is not zero is true. */
  function FromFlags(w: nat): ReqSet {
    var bs := Unpack(w, 8);
    ReqSet(bs[0] != 0, bs[1] != 0, bs[2] != 0, bs[3] != 0,
           bs[4] != 0, bs[5] != 0, bs[6] != 0, bs[7] != 0)
  }

  lemma {:induction false} LittleEndianZero(bs: seq<nat>)
    ensures LittleEndian(bs) == 0 <==> forall i :: 0 <= i < |bs| ==> bs[i] == 0
  {
    if bs != [] {
      LittleEndianZero(bs[1..]);
      assert forall i :: 1 <= i < |bs| ==> bs[i] == bs[1..][i - 1];
    }
  }

  lemma {:induction false} LittleEndianBound(bs: seq<nat>)
    requires AreBytes(bs)
    ensures LittleEndian(bs) < Pow256(|bs|)
  {
    if bs != [] {
      LittleEndianBound(bs[1..]);
    }
  }

  /** Unpacking a packed word gives the bytes back. */
  lemma {:induction false} UnpackLittleEndian(bs: seq<nat>)
    requires AreBytes(bs)
    ensures Unpack(LittleEndian(bs), |bs|) == bs
  {
    if bs != [] {
      var w := LittleEndian(bs);
      assert w % 256 == bs[0] && w / 256 == LittleEndian(bs[1..]);
      UnpackLittleEndian(bs[1..]);
    }
  }

  /** A probe's byte sits at its field's position. */
  lemma BytesAt(r: ReqSet, p: Probe)
    ensures r.Bytes()[Rank(p)] == Byte(r.Get(p))
  {
  }

  /** The word is zero exactly when no named flag is set; termination relies on this. */
  lemma FlagsZeroIff(r: ReqSet)
    ensures r.Flags() == 0 <==> r.Idle()
  {
    var bs := r.Bytes();
    LittleEndianZero(bs);
    if r.Flags() == 0 {
      forall p ensures !r.Get(p) {
        BytesAt(r, p);
      }
    }
    if r.Idle() {
      AllProbesDistinct();
      forall i | 0 <= i < |bs| ensures bs[i] == 0 {
        assert Rank(AllProbes[i]) == i;
        BytesAt(r, AllProbes[i]);
      }
    }
  }

  /** The union holds nothing but the flags: the word fits in 64 bits and reads back as the same set. */
  lemma FlagsRoundTrip(r: ReqSet)
    ensures r.Flags() < 0x1_0000_0000_0000_0000
    ensures FromFlags(r.Flags()) == r
  {
    var bs := r.Bytes();
    LittleEndianBound(bs);
    UnpackLittleEndian(bs);
    assert Pow256(2) == 0x1_0000;
    assert Pow256(4) == 0x1_0000_0000;
    assert Pow256(8) == 0x1_0000_0000_0000_0000;
  }

  /** Writing the word 0 clears all eight probes. */
  lemma ZeroWordClearsAll()
    ensures FromFlags(0) == NoRequests
    ensures NoRequests.Idle()
  {
    assert NoRequests.Flags() == 0;
    FlagsRoundTrip(NoRequests);
  }

  /**
   * The state the termination check works on: the request set and whether
   * the event loop was asked to stop.
   */
  datatype RunState = RunState(req: ReqSet, cancelled: bool)
  {
    /** The run was never stopped while a probe was pending. */
    ghost predicate Safe() {
      cancelled ==> req.Idle()
    }

    /** The run is stopped exactly when nothing is pending. */
    ghost predicate Settled() {
      cancelled <==> req.Idle()
    }
  }

  /** A probe's flag written false, without a termination check. */
  function Cleared(s: RunState, p: Probe): (t: RunState)
    ensures !t.req.Get(p) && t.cancelled == s.cancelled
    ensures forall q :: q != p ==> t.req.Get(q) == s.req.Get(q)
  {
    s.(req := s.req.Set(p, false))
  }

  /** The termination check: stop the run when the whole word is zero, else change nothing. */
  function CheckDone(s: RunState): (t: RunState)
    ensures t.req == s.req
    ensures t.cancelled <==> s.cancelled || forall p :: !s.req.Get(p)
  {
    FlagsZeroIff(s.req);
    if s.req.Flags() != 0 then s else s.(cancelled := true)
  }

  /** A probe reports completion: its flag is cleared, then termination is checked. */
  function Complete(s: RunState, p: Probe): RunState {
    CheckDone(Cleared(s, p))
  }

  /** Completions reported one after another. */
  function CompleteAll(s: RunState, ps: seq<Probe>): RunState
    decreases |ps|
  {
    if ps == [] then s else CompleteAll(Complete(s, ps[0]), ps[1..])
  }

  /** A completion reported twice changes nothing the second time. */
  lemma CompleteIdempotent(s: RunState, p: Probe)
    ensures Complete(Complete(s, p), p) == Complete(s, p)
  {
    var t := Complete(s, p);
    GetDetermines(t.req.Set(p, false), t.req);
  }

  /** Clearing flags and checking for termination never stops a run early. */
  lemma CompletePreserves(s: RunState, p: Probe)
    ensures s.Safe() ==> Cleared(s, p).Safe() && Complete(s, p).Safe()
    ensures s.Settled() ==> Complete(s, p).Settled()
  {
  }

  /** After a series of completions, exactly the reported probes have been cleared, in any order. */
  lemma {:induction false} CompleteAllRequests(s: RunState, ps: seq<Probe>)
    ensures forall q :: CompleteAll(s, ps).req.Get(q) <==> s.req.Get(q) && q !in ps
    decreases |ps|
  {
    if ps != [] {
      CompleteAllRequests(Complete(s, ps[0]), ps[1..]);
    }
  }

  /** A run that was stopped stays stopped. */
  lemma {:induction false} CompleteAllKeepsCancel(s: RunState, ps: seq<Probe>)
    requires s.cancelled
    ensures CompleteAll(s, ps).cancelled
    decreases |ps|
  {
    if ps != [] {
      CompleteAllKeepsCancel(Complete(s, ps[0]), ps[1..]);
    }
  }

  /** Once every pending probe has reported, the run has stopped. */
  lemma {:induction false} TerminatesOnceAllReported(s: RunState, ps: seq<Probe>)
    requires ps != []
    requires forall p :: s.req.Get(p) ==> p in ps
    ensures CompleteAll(s, ps).cancelled
    decreases |ps|
  {
    var t := Complete(s, ps[0]);
    if ps[1..] == [] {
      assert forall p :: !t.req.Get(p);
    } else {
      forall p | t.req.Get(p) ensures p in ps[1..] {
        assert p != ps[0];
      }
      TerminatesOnceAllReported(t, ps[1..]);
    }
  }

  /** While some pending probe has not reported, the run goes on. */
  lemma {:induction false} NoEarlyTermination(s: RunState, ps: seq<Probe>, p: Probe)
    requires !s.cancelled && s.req.Get(p) && p !in ps
    ensures !CompleteAll(s, ps).cancelled
    decreases |ps|
  {
    if ps != [] {
      var t := Complete(s, ps[0]);
      assert t.req.Get(p);
      NoEarlyTermination(t, ps[1..], p);
    }
  }

  /** A settled run stays settled whatever completions arrive. */
  lemma {:induction false} SettledIsInvariant(s: RunState, ps: seq<Probe>)
    requires s.Settled()
    ensures CompleteAll(s, ps).Settled()
    decreases |ps|
  {
    if ps != [] {
      CompletePreserves(s, ps[0]);
      SettledIsInvariant(Complete(s, ps[0]), ps[1..]);
    }
  }

  /**
   * The single request set of a run together with the event loop's stop
   * request. The main, NAT-behaviour and TURN modules all hold this one
   * object.
   */
  class Registry {
    var req: ReqSet
    var cancelled: bool

    constructor (initial: ReqSet)
      ensures req == initial && !cancelled
    {
      req := initial;
      cancelled := false;
    }

    function State(): RunState
      reads this
    {
      RunState(req, cancelled)
    }

    /** Writes one flag false (`req.f.<probe> = false`). */
    method Clear(p: Probe)
      modifies this
      ensures State() == Cleared(old(State()), p)
    {
      req := req.Set(p, false);
    }

    /** Writes the whole word to zero (`req.flags = 0`). */
    method ClearAll()
      modifies this
      ensures req == NoRequests && req.Idle() && cancelled == old(cancelled)
    {
      ZeroWordClearsAll();
      req := FromFlags(0);
    }

    /** Asks the event loop to stop if the whole word is zero. */
    method TerminateIfDone()
      modifies this
      ensures State() == CheckDone(old(State()))
    {
      if req.Flags() != 0 {
        return;
      }
      cancelled := true;
    }
  }
}
