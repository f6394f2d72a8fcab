/**
 * The command line of the STUN client (src/main.c, `main`): the options that
 * getopt returns are applied one after another to the run's configuration,
 * and then the positional server argument is checked. getopt itself and the
 * atoi conversion of numeric arguments are the C library's; an option here
 * carries the letter getopt returned, its argument, and the number atoi
 * makes of that argument.
 */
module Options {
  import opened Net
  import opened Requests

  datatype Family = Inet4 | Inet6

  /** One option as getopt returns it. `value` is atoi of `arg`. */
  datatype Opt = Opt(letter: char, arg: string, value: int)

  /** The run's configuration, as `main` fills it in. */
  datatype Config = Config(
    proto: Transport,
    af: Family,
    port: nat,       // uint16_t
    rto: nat,        // uint32_t, in milliseconds
    req: ReqSet,
    username: Option<string>,
    password: Option<string>,
    dest: Option<string>,
    lifetime: nat,   // uint32_t, in seconds
    loopPort: nat,   // uint16_t
    server: string)

  /** The exit code for a usage error. */
  const UsageError: int := -2

  /**
   * The configuration before the options are read. The retransmission
   * timeout and the relay lifetime default to constants of the protocol
   * library, which are parameters here.
   */
  function Defaults(defaultRto: nat, defaultLifetime: nat): (c: Config)
    ensures c.proto == Unspecified && c.af == Inet4
    ensures forall p :: !c.req.Get(p)
    ensures c.rto == defaultRto && c.lifetime == defaultLifetime
    ensures c.username == None && c.password == None && c.dest == None
  {
    Config(Unspecified, Inet4, 0, defaultRto, NoRequests, None, None, None,
           defaultLifetime, 0, "")
  }

  /** The option letter that requests a probe on its own. */
  function Letter(p: Probe): char {
    match p
    case BindingDiscovery => 'b'
    case Hairpinning => 'h'
    case Mapping => 'm'
    case Filtering => 'f'
    case Lifetime => 'l'
    case GenericAlg => 'g'
    case Relay => 'T'
    case Ice => 'I'
  }

  /** The probes that -a requests. */
  const AllTests: set<Probe> := {BindingDiscovery, Hairpinning, Mapping, Filtering, GenericAlg}

  /** Letter c requests probe p: its own letter, or -a for the five basic tests. */
  predicate Selects(c: char, p: Probe) {
    c == Letter(p) || (c == 'a' && p in AllTests)
  }

  /** The request flags an option letter sets; every other flag is left as it was. */
  function Request(r: ReqSet, c: char): (r': ReqSet)
    ensures forall p :: r'.Get(p) == (r.Get(p) || Selects(c, p))
  {
    match c
    case 'b' => r.(bd := true)
    case 'h' => r.(nh := true)
    case 'm' => r.(nm := true)
    case 'f' => r.(nf := true)
    case 'l' => r.(nl := true)
    case 'g' => r.(ga := true)
    case 'a' => r.(bd := true, nh := true, nm := true, nf := true, ga := true)
    case 'T' => r.(ar := true)
    case 'I' => r.(ice := true)
    case _ => r
  }

  /**
   * The effect of one option other than '?' on the configuration: a probe
   * letter sets the flags it selects and no other, only -u and -t change
   * the transport, and the server is never touched.
   */
  function Apply(cfg: Config, o: Opt): (r: Config)
    ensures forall p :: r.req.Get(p) == (cfg.req.Get(p) || Selects(o.letter, p))
    ensures r.proto == (if o.letter == 'u' then Udp else if o.letter == 't' then Tcp else cfg.proto)
    ensures r.server == cfg.server
  {
    match o.letter
    case 'p' => cfg.(port := o.value % 0x1_0000)
    case 'r' => cfg.(rto := o.value % 0x1_0000_0000)
    case '6' => cfg.(af := Inet6)
    case 'u' => cfg.(proto := Udp)
    case 't' => cfg.(proto := Tcp)
    case 'U' => cfg.(username := Some(o.arg))
    case 'P' => cfg.(password := Some(o.arg))
    case 'D' => cfg.(dest := Some(o.arg))
    case 'L' => cfg.(lifetime := o.value % 0x1_0000_0000)
    case 'O' => cfg.(loopPort := o.value % 0x1_0000)
    case _ => cfg.(req := Request(cfg.req, o.letter))
  }

  /** Options applied from first to last. */
  function ApplyAll(cfg: Config, opts: seq<Opt>): Config
    decreases |opts|
  {
    if opts == [] then cfg else Apply(ApplyAll(cfg, opts[..|opts| - 1]), opts[|opts| - 1])
  }

  /** A probe is requested after the options exactly when some option's letter selects it. */
  lemma {:induction false} RequestedProbes(cfg: Config, opts: seq<Opt>, p: Probe)
    ensures ApplyAll(cfg, opts).req.Get(p) <==>
      cfg.req.Get(p) || exists k :: 0 <= k < |opts| && Selects(opts[k].letter, p)
    decreases |opts|
  {
    if opts != [] {
      var init := opts[..|opts| - 1];
      RequestedProbes(cfg, init, p);
      assert forall k :: 0 <= k < |init| ==> init[k] == opts[k];
      if exists k :: 0 <= k < |opts| && Selects(opts[k].letter, p) {
        var k :| 0 <= k < |opts| && Selects(opts[k].letter, p);
        if k < |init| {
          assert Selects(init[k].letter, p);
        }
      }
    }
  }

  /** Without -u or -t the transport stays as it was: unspecified, from the defaults. */
  lemma {:induction false} TransportUnchanged(cfg: Config, opts: seq<Opt>)
    requires forall k :: 0 <= k < |opts| ==> opts[k].letter != 'u' && opts[k].letter != 't'
    ensures ApplyAll(cfg, opts).proto == cfg.proto
    decreases |opts|
  {
    if opts != [] {
      TransportUnchanged(cfg, opts[..|opts| - 1]);
    }
  }

  /** The getopt loop stops at a '?' option. */
  predicate HasHelp(opts: seq<Opt>) {
    exists k :: 0 <= k < |opts| && opts[k].letter == '?'
  }

  /** The positional check: exactly one argument after the options, and at least one in all. */
  predicate BadArgCount(argc: nat, optind: nat) {
    argc < 2 || argc != optind + 1
  }

  /**
   * The option loop of `main` and the argument check after it. `argv` is the
   * whole argument vector and `optind` the index getopt stopped at. A '?'
   * option or a wrong argument count is a usage error; otherwise the
   * configuration is the defaults with every option applied in order and
   * the server taken from the last argument.
   */
  method ParseCommandLine(opts: seq<Opt>, argv: seq<string>, optind: nat,
                          defaultRto: nat, defaultLifetime: nat) returns (r: Result<Config>)
    ensures r.Failure? <==> HasHelp(opts) || BadArgCount(|argv|, optind)
    ensures r.Failure? ==> r.error == UsageError
    ensures r.Success? ==>
      r.value == ApplyAll(Defaults(defaultRto, defaultLifetime), opts).(server := argv[optind])
  {
    var cfg := Defaults(defaultRto, defaultLifetime);
    var i := 0;
    while i < |opts|
      invariant 0 <= i <= |opts|
      invariant cfg == ApplyAll(Defaults(defaultRto, defaultLifetime), opts[..i])
      invariant forall k :: 0 <= k < i ==> opts[k].letter != '?'
    {
      if opts[i].letter == '?' {
        return Failure(UsageError);
      }
      assert opts[..i + 1][..i] == opts[..i];
      cfg := Apply(cfg, opts[i]);
      i := i + 1;
    }
    assert opts[..i] == opts;
    if |argv| < 2 || |argv| != optind + 1 {
      return Failure(UsageError);
    }
    r := Success(cfg.(server := argv[optind]));
  }
}
