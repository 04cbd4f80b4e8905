/** The gRPC server variant (grpc/server.go): construction with the RED
    interceptors chained in, the health status it publishes, the dispatch of
    `run` and the fixed shutdown sequence. */
module GrpcServer {
  import opened Common
  import opened Metrics
  import opened HttpMux
  import opened Lifecycle

  /** The configuration fields the server reads (durations in nanoseconds). */
  datatype Config = Config(
    shutdownTimeout: int,
    apiHost: string,
    metricsHost: string,
    namespace: string,
    name: string)

  /** The interceptors chained into the server. */
  datatype Interceptor =
    | GrpcPrometheusUnary
    | GrpcPrometheusStream
    | REDUnary(red: RedMetrics)
    | REDStream(red: RedMetrics)

  /** The server options: the caller's (known by identity) and the two chains. */
  datatype ServerOption =
    | UserOption(id: nat)
    | ChainUnary(unary: seq<Interceptor>)
    | ChainStream(stream: seq<Interceptor>)

  /** What is registered on the `grpc.Server`, in order. */
  datatype Registration =
    | UserServices(register: nat)
    | Reflection
    | HealthService
    | InitializeMetrics

  /** The metric set the gRPC server asks for: type `grpc`, requests and
      durations both labelled by service and method. */
  function GrpcRED(namespace: string, strategyNewRED: Strategy): (r: Result<Red>)
    ensures !ValidNamespace(namespace) ==> r == Err(NamespaceError)
    ensures KeepsOptions(strategyNewRED) && r.Ok? ==>
      r.value.opts == RedOpts(namespace, "grpc", ["service", "method"], ["error"], ["service", "method"])
  {
    NewRED(namespace, "grpc", ["service", "method"], ["service", "method"], strategyNewRED)
  }

  /** The options the server is created with: the caller's, then one chain of
      unary and one chain of stream interceptors, each the library's
      interceptor first and the RED interceptor second. */
  function ServerOptions(userOptions: seq<nat>, red: RedMetrics): (opts: seq<ServerOption>)
    ensures |opts| == |userOptions| + 2
    ensures forall i :: 0 <= i < |userOptions| ==> opts[i] == UserOption(userOptions[i])
    ensures opts[|userOptions|] == ChainUnary([GrpcPrometheusUnary, REDUnary(red)])
    ensures opts[|userOptions| + 1] == ChainStream([GrpcPrometheusStream, REDStream(red)])
  {
    seq(|userOptions|, i requires 0 <= i < |userOptions| => UserOption(userOptions[i]))
      + [ChainUnary([GrpcPrometheusUnary, REDUnary(red)]), ChainStream([GrpcPrometheusStream, REDStream(red)])]
  }

  /** The registrations `NewServer` performs on the gRPC server: the caller's
      services when a register callback is given, then reflection, the health
      service and the library metrics' initialisation. The callback runs
      exactly once when it is given and not at all when it is nil. */
  function Registrations(register: Option<nat>): (regs: seq<Registration>)
    ensures |regs| == if register.Some? then 4 else 3
    ensures regs[|regs| - 3..] == [Reflection, HealthService, InitializeMetrics]
    ensures register.Some? ==> regs[0] == UserServices(register.value)
    ensures forall i :: 0 <= i < |regs| && regs[i].UserServices? ==> i == 0 && register == Some(regs[i].register)
  {
    match register
    case Some(id) => [UserServices(id), Reflection, HealthService, InitializeMetrics]
    case None => [Reflection, HealthService, InitializeMetrics]
  }

  /** The statuses a fresh health service holds: the overall server is serving. */
  const InitialHealth: map<string, ServingStatus> := map["" := Serving]

  /** `Server`: the gRPC server (its options and registrations), the metric
      set its interceptors record into, the health service's statuses, the
      metrics HTTP server, and the trace of side effects so far. */
  class Server {
    const config: Config
    const red: RedMetrics
    const options: seq<ServerOption>
    const registrations: seq<Registration>
    const metricsServer: HttpServer<Handler>
    var health: map<string, ServingStatus>
    var trace: seq<Action>

    constructor (
      config: Config, red: RedMetrics, options: seq<ServerOption>,
      registrations: seq<Registration>, metricsServer: HttpServer<Handler>)
      ensures this.config == config && this.red == red && this.options == options
      ensures this.registrations == registrations && this.metricsServer == metricsServer
      ensures health == InitialHealth && trace == []
    {
      this.config := config;
      this.red := red;
      this.options := options;
      this.registrations := registrations;
      this.metricsServer := metricsServer;
      health := InitialHealth;
      trace := [];
    }

    /** The gRPC goroutine of `run`: listen on the API host; on failure
        deliver the wrapped listen error and leave the health status alone;
        on success mark the service SERVING, then serve, and deliver what
        `Serve` returns. `listenErr` and `serveErr` are the outcomes of the
        two network calls. */
    method StartGrpc(listenErr: Option<string>, serveErr: Option<string>) returns (delivered: Option<string>)
      modifies this
      ensures listenErr.Some? ==>
        && delivered == Some(Wrap("failed to listen on " + config.apiHost, listenErr.value))
        && health == old(health)
        && trace == old(trace) + [Listen(config.apiHost)]
      ensures listenErr.None? ==>
        && delivered == serveErr
        && health == old(health)[config.name := Serving]
        && trace == old(trace) + [Listen(config.apiHost), SetServingStatus(config.name, Serving), Serve]
    {
      trace := trace + [Listen(config.apiHost)];
      if listenErr.Some? {
        return Some(Wrap("failed to listen on " + config.apiHost, listenErr.value));
      }

      health := health[config.name := Serving];
      trace := trace + [SetServingStatus(config.name, Serving)];

      trace := trace + [Serve];
      delivered := serveErr;
    }

    /** `shutdownServers`. `metricsErr` is how the metrics server's
        `Shutdown(ctx)` ends; `drained` is which case the final `select`
        takes: the graceful stop finished (true) or `ctx` expired first. */
    method ShutdownServers(ctx: Context, signal: Option<string>, metricsErr: Option<string>, drained: bool)
      returns (err: Option<string>, signalText: string)
      modifies this
      ensures var plan := GrpcShutdownPlan(config.name, ctx, metricsErr, drained);
        && trace == old(trace) + plan.actions
        && err == plan.err
      ensures health == old(health)[config.name := NotServing]
      ensures signalText == SignalLabel(signal)
    {
      signalText := SignalLabel(signal);

      health := health[config.name := NotServing];
      trace := trace + [SetServingStatus(config.name, NotServing)];

      trace := trace + [GrpcGracefulStop];

      trace := trace + [GracefulShutdown("metrics", ctx)];
      if metricsErr.Some? {
        trace := trace + [Close("metrics")];
        return Some(Wrap("metrics server could not stop gracefully", metricsErr.value)), signalText;
      }

      if !drained {
        trace := trace + [GrpcStop];
        return Some(GrpcTimeoutError), signalText;
      }
      return None, signalText;
    }

    /** `run`, from the event its `select` takes on: a done context shuts
        down under a fresh context bounded by the shutdown timeout, with no
        signal; a listener error is returned wrapped and nothing is stopped;
        a signal shuts down under a bounded context derived from the server
        context. `signalText` is the signal text of the shutdown's log
        records (empty when nothing is shut down). */
    method Run(event: RunEvent, metricsErr: Option<string>, drained: bool)
      returns (err: Option<string>, signalText: string)
      modifies this
      ensures event.ContextDone? ==>
        var plan := GrpcShutdownPlan(config.name, WithTimeout(Background, config.shutdownTimeout), metricsErr, drained);
        && trace == old(trace) + plan.actions && err == plan.err
        && health == old(health)[config.name := NotServing]
        && signalText == SignalLabel(None)
      ensures event.ListenerError? ==>
        && err == Some(Wrap("server error", event.err))
        && trace == old(trace) && health == old(health) && signalText == ""
      ensures event.SignalReceived? ==>
        var plan := GrpcShutdownPlan(config.name, WithTimeout(ServerContext, config.shutdownTimeout), metricsErr, drained);
        && trace == old(trace) + plan.actions && err == plan.err
        && health == old(health)[config.name := NotServing]
        && signalText == event.name
    {
      match event
      case ContextDone =>
        err, signalText := ShutdownServers(WithTimeout(Background, config.shutdownTimeout), None, metricsErr, drained);
      case ListenerError(e) =>
        err, signalText := Some(Wrap("server error", e)), "";
      case SignalReceived(name) =>
        err, signalText := ShutdownServers(WithTimeout(ServerContext, config.shutdownTimeout), Some(name), metricsErr, drained);
    }
  }

  /** The error returned when the graceful stop outlives the deadline. */
  const GrpcTimeoutError := "grpc server shutdown timed out"

  /** The shutdown sequence as a value: NOT_SERVING, graceful stop begun,
      metrics shut down; then either the metrics server is closed and its
      error returned, or the gRPC server is force-stopped because the
      deadline came first, or it drained and the result is nil. */
  function GrpcShutdownPlan(name: string, ctx: Context, metricsErr: Option<string>, drained: bool): (plan: ShutdownOutcome)
    ensures plan.err.None? <==> metricsErr.None? && drained
    ensures GrpcStop in plan.actions <==> metricsErr.None? && !drained
    ensures Close("metrics") in plan.actions <==> metricsErr.Some?
    ensures |plan.actions| >= 3
    ensures plan.actions[..3] == [SetServingStatus(name, NotServing), GrpcGracefulStop, GracefulShutdown("metrics", ctx)]
    ensures metricsErr.Some? ==> plan.err == Some(Wrap("metrics server could not stop gracefully", metricsErr.value))
    ensures metricsErr.None? && !drained ==> plan.err == Some(GrpcTimeoutError)
  {
    var begun := [SetServingStatus(name, NotServing), GrpcGracefulStop, GracefulShutdown("metrics", ctx)];
    if metricsErr.Some? then
      ShutdownOutcome(begun + [Close("metrics")], Some(Wrap("metrics server could not stop gracefully", metricsErr.value)))
    else if !drained then
      ShutdownOutcome(begun + [GrpcStop], Some(GrpcTimeoutError))
    else
      ShutdownOutcome(begun, None)
  }

  /** The context a done server context shuts down under is not cancelled
      with it; the one a signal shuts down under is. */
  lemma ShutdownContexts(timeout: int)
    ensures !DerivedFromServer(WithTimeout(Background, timeout))
    ensures DerivedFromServer(WithTimeout(ServerContext, timeout))
  {
  }

  /** `NewServer`: build and register the metric set (errors wrapped, nothing
      else built), chain the interceptors after the caller's options, run the
      registrations, and set up the metrics server. */
  method NewServer(
    registry: Registry, config: Config, register: Option<nat>, userOptions: seq<nat>, strategyNewRED: Strategy)
    returns (r: Result<Server>)
    modifies registry
    ensures GrpcRED(config.namespace, strategyNewRED).Err? ==>
      && r == Err(Wrap("failed to create RED metrics", GrpcRED(config.namespace, strategyNewRED).error))
      && registry.registered == old(registry.registered)
    ensures GrpcRED(config.namespace, strategyNewRED).Ok? ==>
      var red := GrpcRED(config.namespace, strategyNewRED).value;
      if red.opts.namespace in old(registry.registered) then
        && r == Err(Wrap("failed to register RED metrics", AlreadyRegistered))
        && registry.registered == old(registry.registered)
      else
        && r.Ok? && fresh(r.value) && fresh(r.value.red)
        && registry.registered == old(registry.registered) + {red.opts.namespace}
        && r.value.config == config
        && r.value.red.built == red
        && r.value.red.Counts() == RedCounts(map[], map[], map[], map[])
        && r.value.options == ServerOptions(userOptions, r.value.red)
        && r.value.registrations == Registrations(register)
        && r.value.health == InitialHealth
        && r.value.trace == []
        && r.value.metricsServer.addr == config.metricsHost
        && r.value.metricsServer.handler.MuxHandler?
        && r.value.metricsServer.handler.mux.patterns == map[MetricsPath := MetricsHandler]
  {
    var built := GrpcRED(config.namespace, strategyNewRED);
    if built.Err? {
      return Err(Wrap("failed to create RED metrics", built.error));
    }
    var registerErr := registry.Register(built.value);
    if registerErr.Some? {
      return Err(Wrap("failed to register RED metrics", registerErr.value));
    }
    var red := new RedMetrics(built.value);

    var options := ServerOptions(userOptions, red);

    var registrations: seq<Registration> := [];
    if register.Some? {
      registrations := registrations + [UserServices(register.value)];
    }
    registrations := registrations + [Reflection, HealthService, InitializeMetrics];

    var metricsServer := NewMetricsServer(config.metricsHost);

    var server := new Server(config, red, options, registrations, metricsServer);
    return Ok(server);
  }

  /** A server that started, then shut down on a signal after draining: it
      went SERVING, then NOT_SERVING, and the stop was graceful. */
  method ServeThenDrain(server: Server, signal: string) returns (err: Option<string>)
    modifies server
    ensures server.health == old(server.health)[server.config.name := NotServing]
    ensures err.None?
    ensures server.trace == old(server.trace) +
      [Listen(server.config.apiHost), SetServingStatus(server.config.name, Serving), Serve,
       SetServingStatus(server.config.name, NotServing), GrpcGracefulStop,
       GracefulShutdown("metrics", WithTimeout(ServerContext, server.config.shutdownTimeout))]
  {
    var delivered := server.StartGrpc(None, None);
    var signalText;
    err, signalText := server.Run(SignalReceived(signal), None, true);
  }
}
