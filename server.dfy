/** The HTTP server of pkg/server/server.go: its defaults, the functional
    options and their left-to-right application in `New`, and the
    sequential skeleton of `Serve` (bind, optional TLS, running flag, result
    classification). The outcomes of the calls into `net`, `crypto/tls` and
    `net/http` are parameters. */
module Server {
  import opened Wrappers
  import opened Http
  import Decimal

  /** `time.Duration` counts nanoseconds. */
  const Second: int := 1_000_000_000

  const DefaultPort: int := 9876
  const DefaultReadTimeout: int := 10 * Second
  const DefaultWriteTimeout: int := 10 * Second
  const DefaultIdleTimeout: int := 60 * Second
  const DefaultShutdownTimeout: int := 5 * Second
  /** 1 << 20, one MiB. */
  const DefaultMaxHeaderBytes: int := 0x10_0000

  /** `tls.VersionTLS12`. */
  const VersionTLS12: int := 0x0303

  const HealthzPattern: string := "/healthz"

  /** Certificate and key file paths. */
  datatype TlsConfig = TlsConfig(certFile: string, keyFile: string)

  /** The closures `server.Option` returned by the `With*` constructors. */
  datatype ServerOption =
    | WithPort(port: int)
    | WithReadTimeout(d: int)
    | WithWriteTimeout(d: int)
    | WithIdleTimeout(d: int)
    | WithShutdownTimeout(d: int)
    | WithMaxHeaderBytes(n: int)
    | WithHandler(pattern: string, handler: Handler)
    | WithSimpleHealth
    | WithTLS(cfg: TlsConfig)

  /** The configurable state of a `server`; `routes` is the sequence of
      `mux.Handle` calls made so far, oldest first. */
  datatype Config = Config(
    port: int,
    readTimeout: int,
    writeTimeout: int,
    idleTimeout: int,
    shutdownTimeout: int,
    maxHeaderBytes: int,
    tls: Option<TlsConfig>,
    routes: seq<Route>)

  /** The struct literal `New` starts from. */
  function Defaults(): Config {
    Config(DefaultPort, DefaultReadTimeout, DefaultWriteTimeout, DefaultIdleTimeout,
           DefaultShutdownTimeout, DefaultMaxHeaderBytes, None, [])
  }

  /** The single-valued fields an option may overwrite. */
  datatype Field = Port | ReadTimeout | WriteTimeout | IdleTimeout | ShutdownTimeout | MaxHeaderBytes | Tls

  datatype Value = IntValue(i: int) | TlsValue(tls: Option<TlsConfig>)

  function Get(c: Config, f: Field): Value {
    match f
    case Port => IntValue(c.port)
    case ReadTimeout => IntValue(c.readTimeout)
    case WriteTimeout => IntValue(c.writeTimeout)
    case IdleTimeout => IntValue(c.idleTimeout)
    case ShutdownTimeout => IntValue(c.shutdownTimeout)
    case MaxHeaderBytes => IntValue(c.maxHeaderBytes)
    case Tls => TlsValue(c.tls)
  }

  /** The field an option writes, if it writes one. */
  function Target(o: ServerOption): Option<Field> {
    match o
    case WithPort(_) => Some(Port)
    case WithReadTimeout(_) => Some(ReadTimeout)
    case WithWriteTimeout(_) => Some(WriteTimeout)
    case WithIdleTimeout(_) => Some(IdleTimeout)
    case WithShutdownTimeout(_) => Some(ShutdownTimeout)
    case WithMaxHeaderBytes(_) => Some(MaxHeaderBytes)
    case WithTLS(_) => Some(Tls)
    case _ => None
  }

  predicate Sets(o: ServerOption, f: Field) {
    Target(o) == Some(f)
  }

  /** The value an option writes into its field. */
  function Written(o: ServerOption): Value
    requires Target(o).Some?
  {
    match o
    case WithPort(p) => IntValue(p)
    case WithReadTimeout(d) => IntValue(d)
    case WithWriteTimeout(d) => IntValue(d)
    case WithIdleTimeout(d) => IntValue(d)
    case WithShutdownTimeout(d) => IntValue(d)
    case WithMaxHeaderBytes(n) => IntValue(n)
    case WithTLS(cfg) => TlsValue(Some(cfg))
  }

  /** The `mux.Handle` calls an option makes. */
  function RoutesOf(o: ServerOption): seq<Route> {
    match o
    case WithHandler(p, h) => [Route(p, h)]
    case WithSimpleHealth => [Route(HealthzPattern, Healthz)]
    case _ => []
  }

  /** Running one option's closure: it changes its own field and nothing
      else, and handler options only append to the registrations. */
  function ApplyOption(c: Config, o: ServerOption): (r: Config)
    ensures forall f :: Get(r, f) == if Sets(o, f) then Written(o) else Get(c, f)
    ensures r.routes == c.routes + RoutesOf(o)
  {
    match o
    case WithPort(p) => c.(port := p)
    case WithReadTimeout(d) => c.(readTimeout := d)
    case WithWriteTimeout(d) => c.(writeTimeout := d)
    case WithIdleTimeout(d) => c.(idleTimeout := d)
    case WithShutdownTimeout(d) => c.(shutdownTimeout := d)
    case WithMaxHeaderBytes(n) => c.(maxHeaderBytes := n)
    case WithHandler(p, h) => c.(routes := c.routes + [Route(p, h)])
    case WithSimpleHealth => c.(routes := c.routes + [Route(HealthzPattern, Healthz)])
    case WithTLS(cfg) => c.(tls := Some(cfg))
  }

  /** The options applied left to right, as `New`'s loop does. */
  function ApplyAll(c: Config, opts: seq<ServerOption>): Config
    decreases |opts|
  {
    if opts == [] then c else ApplyOption(ApplyAll(c, opts[..|opts| - 1]), opts[|opts| - 1])
  }

  /** The position of the last option that writes `f`. */
  function LastSetter(opts: seq<ServerOption>, f: Field): (i: Option<nat>)
    ensures i.Some? ==> i.value < |opts| && Sets(opts[i.value], f)
    ensures i.Some? ==> forall j :: i.value < j < |opts| ==> !Sets(opts[j], f)
    ensures i.None? ==> forall j :: 0 <= j < |opts| ==> !Sets(opts[j], f)
    decreases |opts|
  {
    if opts == [] then None
    else if Sets(opts[|opts| - 1], f) then Some(|opts| - 1)
    else LastSetter(opts[..|opts| - 1], f)
  }

  /** The routes of a list of options, in the order the options come. */
  function RoutesOfAll(opts: seq<ServerOption>): seq<Route>
    decreases |opts|
  {
    if opts == [] then [] else RoutesOfAll(opts[..|opts| - 1]) + RoutesOf(opts[|opts| - 1])
  }

  /** The last option that sets a field decides it; a field no option sets
      keeps its starting value. */
  lemma {:induction false} LastOptionWins(c: Config, opts: seq<ServerOption>, f: Field)
    ensures Get(ApplyAll(c, opts), f) ==
      match LastSetter(opts, f)
      case None => Get(c, f)
      case Some(i) => Written(opts[i])
    decreases |opts|
  {
    if opts != [] {
      var init := opts[..|opts| - 1];
      LastOptionWins(c, init, f);
      if !Sets(opts[|opts| - 1], f) {
        assert LastSetter(opts, f) == LastSetter(init, f);
        match LastSetter(init, f)
        case None =>
        case Some(i) => assert opts[i] == init[i];
      }
    }
  }

  /** Registrations accumulate in option order. */
  lemma {:induction false} RoutesInOrder(c: Config, opts: seq<ServerOption>)
    ensures ApplyAll(c, opts).routes == c.routes + RoutesOfAll(opts)
    decreases |opts|
  {
    if opts != [] {
      RoutesInOrder(c, opts[..|opts| - 1]);
    }
  }

  lemma {:induction false} RoutesOfAllAppend(a: seq<ServerOption>, b: seq<ServerOption>)
    ensures RoutesOfAll(a + b) == RoutesOfAll(a) + RoutesOfAll(b)
    decreases |b|
  {
    if b == [] {
      assert a + b == a;
    } else {
      var n := |b| - 1;
      assert (a + b)[..|a + b| - 1] == a + b[..n];
      RoutesOfAllAppend(a, b[..n]);
    }
  }

  /** Applying `a` and then `b` is applying `a + b`. */
  lemma {:induction false} ApplyAllAppend(c: Config, a: seq<ServerOption>, b: seq<ServerOption>)
    ensures ApplyAll(c, a + b) == ApplyAll(ApplyAll(c, a), b)
    decreases |b|
  {
    if b == [] {
      assert a + b == a;
    } else {
      var n := |b| - 1;
      assert (a + b)[..|a + b| - 1] == a + b[..n];
      ApplyAllAppend(c, a, b[..n]);
    }
  }

  /** `New()` without options has the documented defaults and no TLS. */
  lemma NoOptionsDefaults()
    ensures ApplyAll(Defaults(), []) == Config(9876, 10_000_000_000, 10_000_000_000, 60_000_000_000,
                                                5_000_000_000, 1_048_576, None, [])
  {
  }

  /** The listen address `":%d"`: a colon, then the port in decimal. */
  function Address(port: int): (a: string)
    ensures |a| >= 2 && a[0] == ':' && a[1..] == Decimal.FromInt(port)
  {
    ":" + Decimal.FromInt(port)
  }

  /** The port can be read back from the address. */
  lemma AddressParses(port: int)
    ensures Decimal.ParseInt(Address(port)[1..]) == Some(port)
  {
    Decimal.IntRoundTrip(port);
  }

  /** Different ports listen on different addresses. */
  lemma AddressInjective(p: int, q: int)
    requires Address(p) == Address(q)
    ensures p == q
  {
    assert Address(p)[1..] == Address(q)[1..];
    AddressParses(p);
    AddressParses(q);
  }

  /** The outcome of `net.Listen` or of `Shutdown`. */
  datatype IoResult = Done | Failed(cause: string)

  /** An opaque loaded key pair. */
  datatype Certificate = Certificate(id: nat)

  /** The outcome of `tls.LoadX509KeyPair`. */
  datatype CertResult = Loaded(cert: Certificate) | LoadFailed(cause: string)

  /** How `http.Server.Serve` returned: `ErrServerClosed` after a shutdown,
      or another error. */
  datatype ServeEnd = ServerClosed | ServeFailed(cause: string)

  /** The `tls.Config` the listener is wrapped with. */
  datatype TlsSettings = TlsSettings(certificates: seq<Certificate>, minVersion: int)

  datatype Listener =
    | TcpListener(addr: string)
    | TlsListener(inner: Listener, settings: TlsSettings)

  /** The `http.Server` that `Serve` builds. */
  datatype HttpServer = HttpServer(
    addr: string,
    routes: seq<Route>,
    readTimeout: int,
    writeTimeout: int,
    idleTimeout: int,
    maxHeaderBytes: int)

  function HttpServerOf(c: Config): HttpServer {
    HttpServer(Address(c.port), c.routes, c.readTimeout, c.writeTimeout, c.idleTimeout, c.maxHeaderBytes)
  }

  /** The errors `Serve` returns, each wrapping its cause with `%w`. */
  datatype ServeError =
    | ListenError(cause: string)
    | CertificateError(cause: string)
    | ServerError(cause: string)
  {
    function Message(): (s: string)
      ensures |s| > |cause| && s[|s| - |cause|..] == cause
    {
      match this
      case ListenError(c) => "failed to create listener: " + c
      case CertificateError(c) => "failed to load TLS certificate: " + c
      case ServerError(c) => "server error: " + c
    }
  }

  /** The lifecycle phases. A server is idle (Created, Stopped or Error)
      between calls of `Serve`. */
  datatype Phase = Created | Bound | Running | Stopped | Error

  predicate Idle(p: Phase) {
    p == Created || p == Stopped || p == Error
  }

  predicate CanStep(p: Phase, q: Phase) {
    (Idle(p) && (q == Bound || q == Error))
    || (p == Bound && (q == Running || q == Error))
    || (p == Running && (q == Stopped || q == Error))
  }

  /** The observable steps of one `Serve` call. */
  datatype Step =
    | Listen(addr: string)
    | LoadKeyPair(certFile: string, keyFile: string)
    | CloseListener
    | SetRunning(on: bool)
    | ServeOn(listener: Listener, srv: HttpServer)
    | Enter(phase: Phase)

  /** Whether binding, and loading the key pair when TLS is configured, succeed. */
  predicate Ready(c: Config, bind: IoResult, cert: CertResult) {
    bind.Done? && (c.tls.None? || cert.Loaded?)
  }

  /** The listener `Serve` serves on once it is ready. */
  function ListenerOf(c: Config, cert: CertResult): Listener {
    if c.tls.Some? && cert.Loaded? then
      TlsListener(TcpListener(Address(c.port)), TlsSettings([cert.cert], VersionTLS12))
    else TcpListener(Address(c.port))
  }

  /** The steps up to the point where the listener is ready or `Serve` gave up. */
  function Setup(c: Config, bind: IoResult, cert: CertResult): seq<Step> {
    [Listen(Address(c.port))]
    + if bind.Failed? then [Enter(Error)]
      else [Enter(Bound)] + TlsSetup(c, cert)
  }

  /** The key-pair load and TLS wrapping, when TLS is configured. */
  function TlsSetup(c: Config, cert: CertResult): seq<Step> {
    if c.tls.None? then []
    else [LoadKeyPair(c.tls.value.certFile, c.tls.value.keyFile)]
         + (if cert.LoadFailed? then [CloseListener, Enter(Error)] else [])
  }

  /** The steps of the serve goroutine: set running, serve, reset running. */
  function Serving(l: Listener, srv: HttpServer, served: ServeEnd): seq<Step> {
    [SetRunning(true), Enter(Running), ServeOn(l, srv), SetRunning(false),
     Enter(if served.ServerClosed? then Stopped else Error)]
  }

  function ServeTrace(c: Config, bind: IoResult, cert: CertResult, served: ServeEnd): seq<Step> {
    Setup(c, bind, cert)
    + if Ready(c, bind, cert) then Serving(ListenerOf(c, cert), HttpServerOf(c), served) else []
  }

  /** What `Serve` returns. */
  function ServeResult(c: Config, bind: IoResult, cert: CertResult, served: ServeEnd): Option<ServeError> {
    if bind.Failed? then Some(ListenError(bind.cause))
    else if c.tls.Some? && cert.LoadFailed? then Some(CertificateError(cert.cause))
    else if served.ServeFailed? then Some(ServerError(served.cause))
    else None
  }

  /** The value `IsRunning` reports after `steps`, starting from false. */
  function RunningAfter(steps: seq<Step>): bool {
    if steps == [] then false
    else if steps[|steps| - 1].SetRunning? then steps[|steps| - 1].on
    else RunningAfter(steps[..|steps| - 1])
  }

  predicate SetsRunning(steps: seq<Step>) {
    exists i :: 0 <= i < |steps| && steps[i].SetRunning?
  }

  predicate Serves(steps: seq<Step>) {
    exists i :: 0 <= i < |steps| && steps[i].ServeOn?
  }

  /** One more step changes the running value only if it sets it. */
  lemma RunningAfterStep(t: seq<Step>, x: Step)
    ensures RunningAfter(t + [x]) == if x.SetRunning? then x.on else RunningAfter(t)
  {
    assert (t + [x])[..|t|] == t;
  }

  lemma {:induction false} RunningAfterKeeps(a: seq<Step>, b: seq<Step>)
    requires !SetsRunning(b)
    ensures RunningAfter(a + b) == RunningAfter(a)
    decreases |b|
  {
    if b == [] {
      assert a + b == a;
    } else {
      var n := |b| - 1;
      assert (a + b)[..|a + b| - 1] == a + b[..n];
      assert !SetsRunning(b[..n]) by {
        forall i | 0 <= i < n ensures !b[..n][i].SetRunning? {
          assert b[..n][i] == b[i];
        }
      }
      RunningAfterKeeps(a, b[..n]);
    }
  }

  /** The phase reached after `steps`, and whether every change of phase
      on the way is a step of the lifecycle machine. */
  function PhaseAfter(p: Phase, steps: seq<Step>): Phase
    decreases |steps|
  {
    if steps == [] then p
    else PhaseAfter(if steps[0].Enter? then steps[0].phase else p, steps[1..])
  }

  predicate FollowsMachine(p: Phase, steps: seq<Step>)
    decreases |steps|
  {
    steps == []
    || (if steps[0].Enter? then CanStep(p, steps[0].phase) && FollowsMachine(steps[0].phase, steps[1..])
        else FollowsMachine(p, steps[1..]))
  }

  /** The steps of the serve goroutine leave Bound for Running and then for
      Stopped or Error, and they hold `running` true from the first step up
      to, not including, the fourth. */
  lemma ServingSteps(a: seq<Step>, l: Listener, srv: HttpServer, served: ServeEnd, j: nat)
    requires !SetsRunning(a) && j <= 5
    ensures FollowsMachine(Bound, Serving(l, srv, served))
    ensures PhaseAfter(Bound, Serving(l, srv, served)) == if served.ServerClosed? then Stopped else Error
    ensures RunningAfter(a + Serving(l, srv, served)[..j]) == (1 <= j <= 3)
  {
    var t := Serving(l, srv, served);
    assert t == [t[0]] + ([t[1]] + ([t[2]] + ([t[3]] + [t[4]])));
    MachineAppend(Bound, [t[0]], [t[1]] + ([t[2]] + ([t[3]] + [t[4]])));
    MachineAppend(Bound, [t[1]], [t[2]] + ([t[3]] + [t[4]]));
    MachineAppend(Running, [t[2]], [t[3]] + [t[4]]);
    MachineAppend(Running, [t[3]], [t[4]]);
    var p := a + t[..j];
    if j == 0 {
      assert p == [] + a;
      RunningAfterKeeps([], a);
    } else if j <= 3 {
      assert p == (a + [t[0]]) + t[1..j];
      assert !SetsRunning(t[1..j]) by {
        forall i | 0 <= i < j - 1 ensures !t[1..j][i].SetRunning? {
          assert t[1..j][i] == t[i + 1];
        }
      }
      RunningAfterKeeps(a + [t[0]], t[1..j]);
    } else {
      assert p == (a + t[..4]) + t[4..j];
      assert !SetsRunning(t[4..j]) by {
        forall i | 0 <= i < j - 4 ensures !t[4..j][i].SetRunning? {
          assert t[4..j][i] == t[4];
        }
      }
      RunningAfterKeeps(a + t[..4], t[4..j]);
    }
  }

  /** What the setup steps contain. */
  lemma SetupSteps(c: Config, bind: IoResult, cert: CertResult)
    ensures !SetsRunning(Setup(c, bind, cert)) && !Serves(Setup(c, bind, cert))
    ensures Enter(Bound) in Setup(c, bind, cert) <==> bind.Done?
    ensures CloseListener in Setup(c, bind, cert) <==> bind.Done? && c.tls.Some? && cert.LoadFailed?
    ensures c.tls.Some? && bind.Done? ==>
      LoadKeyPair(c.tls.value.certFile, c.tls.value.keyFile) in Setup(c, bind, cert)
  {
  }

  /** Loading the key pair keeps the server Bound, or fails it. */
  lemma TlsSetupSteps(c: Config, cert: CertResult)
    ensures FollowsMachine(Bound, TlsSetup(c, cert))
    ensures PhaseAfter(Bound, TlsSetup(c, cert)) == if c.tls.Some? && cert.LoadFailed? then Error else Bound
  {
    if c.tls.Some? {
      var pair := LoadKeyPair(c.tls.value.certFile, c.tls.value.keyFile);
      if cert.LoadFailed? {
        assert TlsSetup(c, cert) == [pair] + ([CloseListener] + [Enter(Error)]);
        MachineAppend(Bound, [CloseListener], [Enter(Error)]);
        MachineAppend(Bound, [pair], [CloseListener] + [Enter(Error)]);
      } else {
        assert TlsSetup(c, cert) == [pair];
      }
    }
  }

  /** A `Serve` call walks the lifecycle machine from an idle phase back to
      an idle phase: Stopped exactly when it returns nil. */
  lemma ServeFollowsMachine(c: Config, bind: IoResult, cert: CertResult, served: ServeEnd, p: Phase)
    requires Idle(p)
    ensures FollowsMachine(p, ServeTrace(c, bind, cert, served))
    ensures PhaseAfter(p, ServeTrace(c, bind, cert, served)) ==
      if ServeResult(c, bind, cert, served).None? then Stopped else Error
  {
    var s := Setup(c, bind, cert);
    var l := [Listen(Address(c.port))];
    if bind.Failed? {
      MachineAppend(p, l, [Enter(Error)]);
    } else {
      var tls := TlsSetup(c, cert);
      TlsSetupSteps(c, cert);
      MachineAppend(Bound, [Enter(Bound)], tls);
      MachineAppend(p, l, [Enter(Bound)] + tls);
      assert s == l + ([Enter(Bound)] + tls);
      if Ready(c, bind, cert) {
        var tail := Serving(ListenerOf(c, cert), HttpServerOf(c), served);
        ServingSteps([], ListenerOf(c, cert), HttpServerOf(c), served, 0);
        MachineAppend(p, s, tail);
        assert ServeTrace(c, bind, cert, served) == s + tail;
      } else {
        assert ServeTrace(c, bind, cert, served) == s;
      }
    }
  }

  lemma {:induction false} MachineAppend(p: Phase, a: seq<Step>, b: seq<Step>)
    ensures PhaseAfter(p, a + b) == PhaseAfter(PhaseAfter(p, a), b)
    ensures FollowsMachine(p, a + b) <==> FollowsMachine(p, a) && FollowsMachine(PhaseAfter(p, a), b)
    decreases |a|
  {
    if a == [] {
      assert a + b == b;
    } else {
      assert (a + b)[1..] == a[1..] + b;
      MachineAppend(if a[0].Enter? then a[0].phase else p, a[1..], b);
    }
  }

  /** `running` becomes true only once the listener is bound (and wrapped in
      TLS when TLS is configured) and not closed; it is true while serving;
      it is false again when `Serve` returns, whatever the outcome; and it
      is ever true exactly when the setup succeeded. */
  lemma ServeRunningWindow(c: Config, bind: IoResult, cert: CertResult, served: ServeEnd)
    ensures var t := ServeTrace(c, bind, cert, served);
      forall k :: 0 <= k <= |t| && RunningAfter(t[..k]) ==>
        Ready(c, bind, cert) && Enter(Bound) in t[..k] && CloseListener !in t[..k]
        && (c.tls.Some? ==> LoadKeyPair(c.tls.value.certFile, c.tls.value.keyFile) in t[..k])
    ensures var t := ServeTrace(c, bind, cert, served);
      forall k :: 0 <= k < |t| && t[k].ServeOn? ==> RunningAfter(t[..k])
    ensures !RunningAfter(ServeTrace(c, bind, cert, served))
    ensures SetRunning(true) in ServeTrace(c, bind, cert, served) <==> Ready(c, bind, cert)
  {
    var t := ServeTrace(c, bind, cert, served);
    var s := Setup(c, bind, cert);
    SetupSteps(c, bind, cert);
    forall k | 0 <= k <= |t|
      ensures RunningAfter(t[..k]) ==>
        Ready(c, bind, cert) && Enter(Bound) in t[..k] && CloseListener !in t[..k]
        && (c.tls.Some? ==> LoadKeyPair(c.tls.value.certFile, c.tls.value.keyFile) in t[..k])
      ensures k < |t| && t[k].ServeOn? ==> RunningAfter(t[..k])
    {
      RunningWindowAt(c, bind, cert, served, k);
    }
    assert t[..|t|] == t;
    RunningWindowAt(c, bind, cert, served, |t|);
    if Ready(c, bind, cert) {
      assert t[|s|] == SetRunning(true);
    } else {
      assert t == s;
    }
  }

  lemma RunningWindowAt(c: Config, bind: IoResult, cert: CertResult, served: ServeEnd, k: nat)
    requires k <= |ServeTrace(c, bind, cert, served)|
    ensures var t := ServeTrace(c, bind, cert, served);
      RunningAfter(t[..k]) ==>
        Ready(c, bind, cert) && Enter(Bound) in t[..k] && CloseListener !in t[..k]
        && (c.tls.Some? ==> LoadKeyPair(c.tls.value.certFile, c.tls.value.keyFile) in t[..k])
    ensures var t := ServeTrace(c, bind, cert, served);
      k < |t| && t[k].ServeOn? ==> RunningAfter(t[..k])
    ensures k == |ServeTrace(c, bind, cert, served)| ==> !RunningAfter(ServeTrace(c, bind, cert, served)[..k])
  {
    var t := ServeTrace(c, bind, cert, served);
    var s := Setup(c, bind, cert);
    SetupSteps(c, bind, cert);
    if k <= |s| {
      RunningDuringSetup(c, bind, cert, served, k);
    } else {
      RunningDuringServing(c, bind, cert, served, k);
    }
  }

  lemma RunningDuringSetup(c: Config, bind: IoResult, cert: CertResult, served: ServeEnd, k: nat)
    requires k <= |Setup(c, bind, cert)|
    ensures k <= |ServeTrace(c, bind, cert, served)|
    ensures !RunningAfter(ServeTrace(c, bind, cert, served)[..k])
    ensures k < |ServeTrace(c, bind, cert, served)| ==> !ServeTrace(c, bind, cert, served)[k].ServeOn?
  {
    var s := Setup(c, bind, cert);
    var tail := if Ready(c, bind, cert) then Serving(ListenerOf(c, cert), HttpServerOf(c), served) else [];
    SetupSteps(c, bind, cert);
    assert tail != [] ==> tail[0] == SetRunning(true);
    QuietPrefix(s, tail, k);
  }

  /** In `s + tail`, where `s` never sets `running` and `tail` can only start
      by setting it, `running` is false up to position `|s|` and nothing is
      served there. */
  lemma QuietPrefix(s: seq<Step>, tail: seq<Step>, k: nat)
    requires !SetsRunning(s) && !Serves(s) && k <= |s|
    requires tail != [] ==> tail[0] == SetRunning(true)
    ensures !RunningAfter((s + tail)[..k])
    ensures k < |s + tail| ==> !(s + tail)[k].ServeOn?
  {
    var p := s[..k];
    assert (s + tail)[..k] == p && [] + p == p;
    assert !SetsRunning(p) by {
      forall i | 0 <= i < k ensures !s[..k][i].SetRunning? {
        assert s[..k][i] == s[i];
      }
    }
    RunningAfterKeeps([], p);
    assert !RunningAfter(p);
    if k < |s| {
      assert (s + tail)[k] == s[k];
    } else if k < |s + tail| {
      assert (s + tail)[k] == tail[0];
    }
  }

  lemma RunningDuringServing(c: Config, bind: IoResult, cert: CertResult, served: ServeEnd, k: nat)
    requires |Setup(c, bind, cert)| < k <= |ServeTrace(c, bind, cert, served)|
    ensures var t := ServeTrace(c, bind, cert, served);
      Ready(c, bind, cert) && Enter(Bound) in t[..k] && CloseListener !in t[..k]
      && (c.tls.Some? ==> LoadKeyPair(c.tls.value.certFile, c.tls.value.keyFile) in t[..k])
    ensures var t := ServeTrace(c, bind, cert, served);
      k < |t| && t[k].ServeOn? ==> RunningAfter(t[..k])
    ensures k == |ServeTrace(c, bind, cert, served)| ==> !RunningAfter(ServeTrace(c, bind, cert, served)[..k])
  {
    var t := ServeTrace(c, bind, cert, served);
    var s := Setup(c, bind, cert);
    SetupSteps(c, bind, cert);
    assert Ready(c, bind, cert);
    var tail := Serving(ListenerOf(c, cert), HttpServerOf(c), served);
    var j := k - |s|;
    assert t == s + tail;
    assert t[..k] == s + tail[..j];
    ServingSteps(s, ListenerOf(c, cert), HttpServerOf(c), served, j);
    assert Enter(Bound) in t[..k] by {
      var i :| 0 <= i < |s| && s[i] == Enter(Bound);
      assert t[..k][i] == Enter(Bound);
    }
    assert CloseListener !in tail[..j];
    assert c.tls.Some? ==> LoadKeyPair(c.tls.value.certFile, c.tls.value.keyFile) in t[..k] by {
      if c.tls.Some? {
        var pair := LoadKeyPair(c.tls.value.certFile, c.tls.value.keyFile);
        var i :| 0 <= i < |s| && s[i] == pair;
        assert t[..k][i] == pair;
      }
    }
    if k < |t| && t[k].ServeOn? {
      assert t[k] == tail[j];
    }
  }

  /** Failures before the listener is ready are exactly the ones that never
      set `running`; nil means the server was closed by a shutdown, and a
      shutdown error never reaches the result. */
  lemma ResultMatchesTrace(c: Config, bind: IoResult, cert: CertResult, served: ServeEnd)
    ensures var r := ServeResult(c, bind, cert, served);
      r.None? <==> Ready(c, bind, cert) && served == ServerClosed
    ensures var r := ServeResult(c, bind, cert, served);
      (r.Some? && !r.value.ServerError?) <==> SetRunning(true) !in ServeTrace(c, bind, cert, served)
    ensures bind.Failed? ==> ServeResult(c, bind, cert, served) == Some(ListenError(bind.cause))
  {
    ServeRunningWindow(c, bind, cert, served);
  }

  /** A failed key-pair load closes the listener as its last action before
      giving up; a successful one serves on a TLS listener holding exactly
      that certificate with TLS 1.2 as the floor. */
  lemma TlsListenerSetup(c: Config, bind: IoResult, cert: CertResult, served: ServeEnd)
    requires c.tls.Some? && bind.Done?
    ensures cert.LoadFailed? ==>
      ServeTrace(c, bind, cert, served) ==
        [Listen(Address(c.port)), Enter(Bound), LoadKeyPair(c.tls.value.certFile, c.tls.value.keyFile),
         CloseListener, Enter(Error)]
    ensures cert.Loaded? ==>
      |ServeTrace(c, bind, cert, served)| == 8 &&
      ServeTrace(c, bind, cert, served)[5] ==
        ServeOn(TlsListener(TcpListener(Address(c.port)), TlsSettings([cert.cert], VersionTLS12)), HttpServerOf(c))
  {
    var pair := LoadKeyPair(c.tls.value.certFile, c.tls.value.keyFile);
    var s := Setup(c, bind, cert);
    if cert.LoadFailed? {
      assert TlsSetup(c, cert) == [pair, CloseListener, Enter(Error)];
      assert !Ready(c, bind, cert);
      assert ServeTrace(c, bind, cert, served) == s;
    } else {
      assert TlsSetup(c, cert) == [pair];
      assert s == [Listen(Address(c.port)), Enter(Bound), pair];
      assert Ready(c, bind, cert);
      var tail := Serving(ListenerOf(c, cert), HttpServerOf(c), served);
      assert ServeTrace(c, bind, cert, served) == s + tail;
      assert (s + tail)[5] == tail[2];
    }
  }

  class Server {
    var port: int
    var readTimeout: int
    var writeTimeout: int
    var idleTimeout: int
    var shutdownTimeout: int
    var maxHeaderBytes: int
    var tls: Option<TlsConfig>
    /** The `ServeMux`, as the sequence of `Handle` calls made on it. */
    var routes: seq<Route>
    var running: bool
    ghost var phase: Phase
    /** The steps taken by `Serve` calls so far. */
    ghost var trace: seq<Step>

    function Configuration(): Config
      reads this
    {
      Config(port, readTimeout, writeTimeout, idleTimeout, shutdownTimeout, maxHeaderBytes, tls, routes)
    }

    /** Between calls the server is idle and not running. */
    ghost predicate Valid()
      reads this
    {
      Idle(phase) && !running && Tracks()
    }

    /** The field `IsRunning` reads holds the value the last `SetRunning`
        step of the trace wrote. */
    ghost predicate Tracks()
      reads this
    {
      running == RunningAfter(trace)
    }

    predicate IsRunning()
      reads this
    {
      running
    }

    /** `New`: the defaults, then every option in order. */
    constructor New(opts: seq<ServerOption>)
      ensures Valid() && phase == Created && trace == []
      ensures Configuration() == ApplyAll(Defaults(), opts)
    {
      port := DefaultPort;
      readTimeout := DefaultReadTimeout;
      writeTimeout := DefaultWriteTimeout;
      idleTimeout := DefaultIdleTimeout;
      shutdownTimeout := DefaultShutdownTimeout;
      maxHeaderBytes := DefaultMaxHeaderBytes;
      tls := None;
      routes := [];
      running := false;
      phase := Created;
      trace := [];
      new;
      var i := 0;
      while i < |opts|
        invariant 0 <= i <= |opts|
        invariant Valid() && phase == Created && trace == []
        invariant Configuration() == ApplyAll(Defaults(), opts[..i])
      {
        assert opts[..i + 1][..i] == opts[..i];
        Apply(opts[i]);
        i := i + 1;
      }
      assert opts[..i] == opts;
    }

    /** Runs one option's closure on the server. */
    method Apply(o: ServerOption)
      modifies this
      ensures Configuration() == ApplyOption(old(Configuration()), o)
      ensures running == old(running) && phase == old(phase) && trace == old(trace)
    {
      match o
      case WithPort(p) => port := p;
      case WithReadTimeout(d) => readTimeout := d;
      case WithWriteTimeout(d) => writeTimeout := d;
      case WithIdleTimeout(d) => idleTimeout := d;
      case WithShutdownTimeout(d) => shutdownTimeout := d;
      case WithMaxHeaderBytes(n) => maxHeaderBytes := n;
      case WithHandler(p, h) => routes := routes + [Route(p, h)];
      case WithSimpleHealth => routes := routes + [Route(HealthzPattern, Healthz)];
      case WithTLS(cfg) => tls := Some(cfg);
    }

    /** `AddHandler`: one more registration on the mux. */
    method AddHandler(pattern: string, handler: Handler)
      modifies this
      ensures Configuration() == old(Configuration()).(routes := old(routes) + [Route(pattern, handler)])
      ensures running == old(running) && phase == old(phase) && trace == old(trace)
    {
      routes := routes + [Route(pattern, handler)];
    }

    /** The first half of `Serve`: listen on the address and, when TLS is
        configured, load the key pair and wrap the listener. */
    method OpenListener(bind: IoResult, cert: CertResult) returns (err: Option<ServeError>, listener: Listener)
      requires Valid()
      modifies this
      ensures Configuration() == old(Configuration()) && !running
      ensures trace == old(trace) + Setup(old(Configuration()), bind, cert)
      ensures Ready(old(Configuration()), bind, cert) ==>
        err.None? && phase == Bound && listener == ListenerOf(old(Configuration()), cert)
      ensures !Ready(old(Configuration()), bind, cert) ==>
        phase == Error && err == ServeResult(old(Configuration()), bind, cert, ServerClosed)
    {
      ghost var c := Configuration();
      var addr := Address(port);
      trace := trace + [Listen(addr)];
      if bind.Failed? {
        phase := Error;
        trace := trace + [Enter(Error)];
        assert Setup(c, bind, cert) == [Listen(addr), Enter(Error)];
        return Some(ListenError(bind.cause)), TcpListener(addr);
      }
      phase := Bound;
      trace := trace + [Enter(Bound)];
      listener := TcpListener(addr);
      if tls.Some? {
        trace := trace + [LoadKeyPair(tls.value.certFile, tls.value.keyFile)];
        if cert.LoadFailed? {
          trace := trace + [CloseListener];
          phase := Error;
          trace := trace + [Enter(Error)];
          assert Setup(c, bind, cert) == [Listen(addr), Enter(Bound), LoadKeyPair(tls.value.certFile, tls.value.keyFile), CloseListener, Enter(Error)];
          return Some(CertificateError(cert.cause)), listener;
        }
        listener := TlsListener(listener, TlsSettings([cert.cert], VersionTLS12));
        assert Setup(c, bind, cert) == [Listen(addr), Enter(Bound), LoadKeyPair(tls.value.certFile, tls.value.keyFile)];
      } else {
        assert Setup(c, bind, cert) == [Listen(addr), Enter(Bound)];
      }
      err := None;
    }

    /** The second half of `Serve`: the serve goroutine, with `running` set
        around `http.Server.Serve`, and the classification of how it ended. */
    method ServeOnListener(listener: Listener, served: ServeEnd) returns (err: Option<ServeError>)
      requires phase == Bound && !running && Tracks()
      modifies this
      ensures Configuration() == old(Configuration()) && !running && Tracks()
      ensures trace == old(trace) + Serving(listener, HttpServerOf(old(Configuration())), served)
      ensures err == if served.ServeFailed? then Some(ServerError(served.cause)) else None
      ensures phase == if err.None? then Stopped else Error
    {
      var srv := HttpServer(Address(port), routes, readTimeout, writeTimeout, idleTimeout, maxHeaderBytes);
      running := true;
      RunningAfterStep(trace, SetRunning(true));
      trace := trace + [SetRunning(true)];
      assert Tracks();
      phase := Running;
      RunningAfterStep(trace, Enter(Running));
      trace := trace + [Enter(Running)];
      assert Tracks() && running;
      RunningAfterStep(trace, ServeOn(listener, srv));
      trace := trace + [ServeOn(listener, srv)];
      assert Tracks();
      running := false;
      RunningAfterStep(trace, SetRunning(false));
      trace := trace + [SetRunning(false)];
      assert Tracks();
      if served.ServeFailed? {
        err := Some(ServerError(served.cause));
        phase := Error;
      } else {
        err := None;
        phase := Stopped;
      }
      RunningAfterStep(trace, Enter(phase));
      trace := trace + [Enter(phase)];
      assert Tracks();
    }

    /** `Serve`, sequentialised: `bind`, `cert`, `served` and `shutdown` are
        what `net.Listen`, `tls.LoadX509KeyPair`, `http.Server.Serve` and
        `http.Server.Shutdown` return. */
    method Serve(bind: IoResult, cert: CertResult, served: ServeEnd, shutdown: IoResult)
      returns (err: Option<ServeError>)
      requires Valid()
      modifies this
      ensures Valid() && Configuration() == old(Configuration())
      ensures trace == old(trace) + ServeTrace(old(Configuration()), bind, cert, served)
      ensures phase == if err.None? then Stopped else Error
      ensures err == ServeResult(old(Configuration()), bind, cert, served)
    {
      ghost var c := Configuration();
      ghost var t0 := trace;
      var listener;
      err, listener := OpenListener(bind, cert);
      SetupSteps(c, bind, cert);
      RunningAfterKeeps(t0, Setup(c, bind, cert));
      if err.Some? {
        assert ServeTrace(c, bind, cert, served) == Setup(c, bind, cert);
        return;
      }
      ghost var t1 := trace;
      err := ServeOnListener(listener, served);
      assert ServeTrace(c, bind, cert, served) == Setup(c, bind, cert) + Serving(listener, HttpServerOf(c), served);
      assert trace == t0 + (Setup(c, bind, cert) + Serving(listener, HttpServerOf(c), served));
      // A failed shutdown is only logged.
    }
  }
}
