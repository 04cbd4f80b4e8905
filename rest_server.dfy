/** The HTTP server variant (rest/server.go): the route table with its
    built-in health check, the wiring of the main and metrics servers, the
    dispatch of `run` and the ordered shutdown of both servers. */
module RestServer {
  import opened Common
  import opened Metrics
  import opened HttpMux
  import opened RestMiddleware
  import opened Lifecycle

  /** The caller's routes: a path and the identity of its handler function. */
  type Routes = map<string, nat>

  /** The configuration fields the server reads (durations in nanoseconds). */
  datatype Config = Config(
    readTimeout: int,
    writeTimeout: int,
    idleTimeout: int,
    shutdownTimeout: int,
    apiHost: string,
    metricsHost: string,
    maxHeaderBytes: int,
    namespace: string)

  /** The routes `CreateRoutes` installs: every caller's path to its handler,
      and `/health` to the health check. */
  function RouteTable(routes: Routes): (table: map<string, Handler>)
    ensures table.Keys == routes.Keys + {HealthPath}
    ensures table[HealthPath] == HealthHandler
    ensures forall p :: p in routes && p != HealthPath ==> table[p] == UserHandler(routes[p])
  {
    (map p | p in routes :: UserHandler(routes[p]))[HealthPath := HealthHandler]
  }

  /** `CreateRoutes`: register every caller's route, then the health check.
      The mux panics on a second registration of `/health`, which happens
      exactly when the caller supplied that path. */
  method CreateRoutes(routes: Routes) returns (mux: ServeMux, panicked: bool)
    ensures fresh(mux)
    ensures panicked <==> HealthPath in routes
    ensures !panicked ==> mux.patterns == RouteTable(routes)
  {
    mux := new ServeMux();

    var remaining := routes.Keys;
    while remaining != {}
      invariant remaining <= routes.Keys
      invariant mux.patterns == map p | p in routes.Keys - remaining :: UserHandler(routes[p])
      decreases |remaining|
    {
      var path :| path in remaining;
      var _ := mux.HandleFunc(path, UserHandler(routes[path]));
      remaining := remaining - {path};
    }

    panicked := mux.HandleFunc(HealthPath, HealthHandler);
  }

  /** How a constructor ended: a value, an error return, or a panic. */
  datatype Construction<T> = Built(value: T) | Failed(error: string) | Panicked

  /** `httpServer`: the two `http.Server`s and the configuration. */
  datatype Server = Server(
    mainServer: HttpServer<REDMiddleware>,
    metricsServer: HttpServer<Handler>,
    config: Config)

  /** `NewServer`: build the route table, wrap it in the RED middleware, and
      set up the main server from the configuration and the metrics server on
      its own host. A middleware error is returned as it is. */
  method NewServer(registry: Registry, config: Config, routes: Routes, strategyNewRED: Strategy)
    returns (r: Construction<Server>)
    modifies registry
    ensures HealthPath in routes ==> r == Panicked && registry.registered == old(registry.registered)
    ensures HealthPath !in routes && HttpRED(config.namespace, strategyNewRED).Err? ==>
      && r == Failed(Wrap("failed to create RED metrics", HttpRED(config.namespace, strategyNewRED).error))
      && registry.registered == old(registry.registered)
    ensures HealthPath !in routes && HttpRED(config.namespace, strategyNewRED).Ok? ==>
      var red := HttpRED(config.namespace, strategyNewRED).value;
      if red.opts.namespace in old(registry.registered) then
        && r == Failed(Wrap("failed to register RED metrics", AlreadyRegistered))
        && registry.registered == old(registry.registered)
      else
        && r.Built?
        && registry.registered == old(registry.registered) + {red.opts.namespace}
        && var main := r.value.mainServer;
        && main.addr == config.apiHost
        && main.readTimeout == config.readTimeout
        && main.writeTimeout == config.writeTimeout
        && main.idleTimeout == config.idleTimeout
        && main.maxHeaderBytes == config.maxHeaderBytes
        && fresh(main.handler) && fresh(main.handler.red)
        && main.handler.red.built == red
        && main.handler.red.Counts() == RedCounts(map[], map[], map[], map[])
        && main.handler.next.MuxHandler?
        && main.handler.next.mux.patterns == RouteTable(routes)
        && var metrics := r.value.metricsServer;
        && metrics.addr == config.metricsHost
        && metrics.handler.MuxHandler?
        && metrics.handler.mux.patterns == map[MetricsPath := MetricsHandler]
        && metrics.readTimeout == 0 && metrics.writeTimeout == 0 && metrics.idleTimeout == 0
        && metrics.maxHeaderBytes == 0
        && r.value.config == config
  {
    var mainMux, panicked := CreateRoutes(routes);
    if panicked {
      return Panicked;
    }

    var handler := NewREDMiddleware(registry, config.namespace, MuxHandler(mainMux), strategyNewRED);
    if handler.Err? {
      return Failed(handler.error);
    }

    var metricsServer := NewMetricsServer(config.metricsHost);

    var main := HttpServer(
      config.apiHost, handler.value,
      config.readTimeout, config.writeTimeout, config.idleTimeout, config.maxHeaderBytes);
    return Built(Server(main, metricsServer, config));
  }

  /** The servers `shutdownServers` stops, in order. */
  const ServerNames: seq<string> := ["main", "metrics"]

  /** The error returned when `name`'s graceful shutdown fails with `err`. */
  function ShutdownError(name: string, err: string): string {
    Wrap(name + " server could not stopped gracefully", err)
  }

  /** The graceful shutdown of each server in `names`, all under `ctx`. */
  function Attempts(names: seq<string>, ctx: Context): (actions: seq<Action>)
    ensures |actions| == |names|
    ensures forall i :: 0 <= i < |names| ==> actions[i] == GracefulShutdown(names[i], ctx)
  {
    if names == [] then [] else [GracefulShutdown(names[0], ctx)] + Attempts(names[1..], ctx)
  }

  /** The shutdown loop read as a recursion over the servers: shut each down
      gracefully in turn; at the first failure close that server and stop
      with its error. `graceful` says how each `Shutdown(ctx)` call ends. */
  function ShutdownPlan(names: seq<string>, ctx: Context, graceful: (string, Context) -> Option<string>)
    : (plan: ShutdownOutcome)
    ensures plan.err.None? ==>
      |plan.actions| == |names| && forall a :: a in plan.actions ==> a.GracefulShutdown?
    ensures plan.err.Some? ==>
      && 2 <= |plan.actions| <= |names| + 1
      && plan.actions[|plan.actions| - 1].Close?
      && forall a :: a in plan.actions[..|plan.actions| - 1] ==> a.GracefulShutdown?
    ensures forall a :: a in plan.actions && a.GracefulShutdown? ==> a.ctx == ctx
    decreases |names|
  {
    if names == [] then
      ShutdownOutcome([], None)
    else
      match graceful(names[0], ctx)
      case Some(e) =>
        ShutdownOutcome([GracefulShutdown(names[0], ctx), Close(names[0])], Some(ShutdownError(names[0], e)))
      case None =>
        var rest := ShutdownPlan(names[1..], ctx, graceful);
        ShutdownOutcome([GracefulShutdown(names[0], ctx)] + rest.actions, rest.err)
  }

  /** When every graceful shutdown succeeds, each server is shut down in
      order and the result is nil. */
  lemma {:induction false} ShutdownPlanAllSucceed(
    names: seq<string>, ctx: Context, graceful: (string, Context) -> Option<string>)
    requires forall i :: 0 <= i < |names| ==> graceful(names[i], ctx).None?
    ensures ShutdownPlan(names, ctx, graceful) == ShutdownOutcome(Attempts(names, ctx), None)
    decreases |names|
  {
    if names != [] {
      assert graceful(names[0], ctx).None?;
      assert forall i :: 0 <= i < |names[1..]| ==> names[1..][i] == names[i + 1];
      ShutdownPlanAllSucceed(names[1..], ctx, graceful);
    }
  }

  /** When the `k`-th server is the first whose graceful shutdown fails,
      the servers up to it are shut down in order, it is closed, no later
      server is touched, and its error is returned. */
  lemma {:induction false} ShutdownPlanStopsAtFirstFailure(
    names: seq<string>, ctx: Context, graceful: (string, Context) -> Option<string>, k: nat)
    requires k < |names| && graceful(names[k], ctx).Some?
    requires forall i :: 0 <= i < k ==> graceful(names[i], ctx).None?
    ensures ShutdownPlan(names, ctx, graceful)
         == ShutdownOutcome(Attempts(names[..k + 1], ctx) + [Close(names[k])],
                            Some(ShutdownError(names[k], graceful(names[k], ctx).value)))
    decreases k
  {
    if k == 0 {
      assert Attempts(names[..1], ctx) == [GracefulShutdown(names[0], ctx)];
    } else {
      assert graceful(names[0], ctx).None?;
      assert forall i :: 0 <= i < |names[1..]| ==> names[1..][i] == names[i + 1];
      ShutdownPlanStopsAtFirstFailure(names[1..], ctx, graceful, k - 1);
      assert names[1..][..k] == names[1..k + 1];
      assert Attempts(names[..k + 1], ctx) == [GracefulShutdown(names[0], ctx)] + Attempts(names[1..k + 1], ctx);
    }
  }

  /** The result is nil exactly when every server shut down gracefully. */
  lemma {:induction false} ShutdownPlanSucceedsIffAllGraceful(
    names: seq<string>, ctx: Context, graceful: (string, Context) -> Option<string>)
    ensures ShutdownPlan(names, ctx, graceful).err.None?
        <==> forall i :: 0 <= i < |names| ==> graceful(names[i], ctx).None?
    decreases |names|
  {
    if names != [] {
      ShutdownPlanSucceedsIffAllGraceful(names[1..], ctx, graceful);
      assert forall i :: 0 <= i < |names[1..]| ==> names[1..][i] == names[i + 1];
    }
  }

  /** With the two servers of this variant: a failing main server is closed
      and the metrics server is never attempted. */
  lemma MainFailureSkipsMetrics(ctx: Context, graceful: (string, Context) -> Option<string>)
    requires graceful("main", ctx).Some?
    ensures ShutdownPlan(ServerNames, ctx, graceful)
         == ShutdownOutcome([GracefulShutdown("main", ctx), Close("main")],
                            Some(ShutdownError("main", graceful("main", ctx).value)))
  {
  }

  /** `shutdownServers`: the loop over `ServerNames` with its early return.
      `signalText` is what its log records carry for the signal. */
  method ShutdownServers(ctx: Context, signal: Option<string>, graceful: (string, Context) -> Option<string>)
    returns (actions: seq<Action>, err: Option<string>, signalText: string)
    ensures ShutdownOutcome(actions, err) == ShutdownPlan(ServerNames, ctx, graceful)
    ensures signalText == SignalLabel(signal)
  {
    signalText := SignalLabel(signal);

    actions := [];
    var i := 0;
    while i < |ServerNames|
      invariant 0 <= i <= |ServerNames|
      invariant forall j :: 0 <= j < i ==> graceful(ServerNames[j], ctx).None?
      invariant actions == Attempts(ServerNames[..i], ctx)
    {
      var name := ServerNames[i];
      actions := actions + [GracefulShutdown(name, ctx)];
      var shutdownErr := graceful(name, ctx);
      if shutdownErr.Some? {
        actions := actions + [Close(name)];
        ShutdownPlanStopsAtFirstFailure(ServerNames, ctx, graceful, i);
        return actions, Some(ShutdownError(name, shutdownErr.value)), signalText;
      }
      i := i + 1;
    }
    ShutdownPlanAllSucceed(ServerNames, ctx, graceful);
    return actions, None, signalText;
  }

  /** `run`, from the event its `select` takes on: a done context shuts down
      under the server context, which is then already cancelled, with no
      signal; a listener error is returned
      wrapped, with no shutdown; a signal shuts down under a context bounded
      by the shutdown timeout and derived from the server context.
      `signalText` is the signal text of the shutdown's log records (empty
      when nothing is shut down). Every graceful shutdown runs under a context
      that is cancelled with the server context. */
  method Run(s: Server, event: RunEvent, graceful: (string, Context) -> Option<string>)
    returns (actions: seq<Action>, err: Option<string>, signalText: string)
    ensures event.ContextDone? ==>
      && ShutdownOutcome(actions, err) == ShutdownPlan(ServerNames, ServerContext, graceful)
      && signalText == SignalLabel(None)
    ensures event.ListenerError? ==>
      actions == [] && err == Some(Wrap("server error", event.err)) && signalText == ""
    ensures event.SignalReceived? ==>
      && ShutdownOutcome(actions, err)
         == ShutdownPlan(ServerNames, WithTimeout(ServerContext, s.config.shutdownTimeout), graceful)
      && signalText == event.name
    ensures forall a :: a in actions && a.GracefulShutdown? ==> DerivedFromServer(a.ctx)
  {
    match event
    case ContextDone =>
      actions, err, signalText := ShutdownServers(ServerContext, None, graceful);
    case ListenerError(e) =>
      actions, err, signalText := [], Some(Wrap("server error", e)), "";
    case SignalReceived(name) =>
      actions, err, signalText := ShutdownServers(WithTimeout(ServerContext, s.config.shutdownTimeout), Some(name), graceful);
  }
}
