# RED-instrumented server scaffolding, in Dafny

This project models the core of a Go library for starting HTTP and gRPC
services. It covers:

- the gRPC interceptors that record Rate, Errors and Duration (RED) per call;
- the namespace check in front of the metrics library;
- the HTTP middleware that records RED per request;
- how both server variants are built, how their `run` reacts to the first
  event, and the order in which they shut down.

Every outcome the environment decides is an input to the model. That
includes what a handler does, whether a listener binds, how a graceful
shutdown ends, which `select` case fires and what the metrics library
builds.

Files:

- `common.dfy` (module `Common`): option and result types, label-keyed
  counters (`Count`, `Bump`), and `%w` error wrapping (`Wrap`).
- `strconv.dfy` (module `Strconv`): `strconv.Itoa` and its inverse. The
  error series of an HTTP status is the decimal spelling of the code.
- `metrics.dfy` (module `Metrics`):
  - the namespace check, proved equal to an automaton for the regular
    expression `^[a-zA-Z_:][a-zA-Z0-9_:]*$`;
  - `NewRED`;
  - the live instruments (class `RedMetrics`);
  - the registry that refuses a second registration (class `Registry`).
- `interceptors.dfy` (module `GrpcInterceptors`): `extractServiceMethod` and
  the unary and stream interceptors.
- `mux.dfy` (module `HttpMux`): the request multiplexer (class `ServeMux`),
  its handlers, the health response body and the metrics server both
  variants build.
- `middleware.dfy` (module `RestMiddleware`): the status-capturing response
  writer, `REDMiddleware.ServeHTTP` and `NewREDMiddleware`.
- `lifecycle.dfy` (module `Lifecycle`): run events, shutdown contexts, the
  action trace and the signal label.
- `rest_server.dfy` (module `RestServer`): `CreateRoutes`, `NewServer`, `run`
  and `shutdownServers` of the HTTP variant.
- `grpc_server.dfy` (module `GrpcServer`): `NewServer`, the listening
  goroutine, `run` and `shutdownServers` of the gRPC variant. The server's
  health statuses and its action trace are fields that the methods update.

Handlers are given a snapshot of the counters as they stand when the handler
runs. That is how the contracts say the request counter is raised *before*
the handler is called: the handler sees the raised count.

Behaviour of the code worth knowing:

- **A caller's `/health` route.** `CreateRoutes` registers the caller's
  routes first and `/health` afterwards, and `http.ServeMux` panics on a
  second registration of the same pattern. So a caller-supplied `/health`
  makes `CreateRoutes`, and with it `NewServer`, panic
  (`RestServer.CreateRoutes`, `RestServer.NewServer`). The test name "custom
  route does not overwrite health check (unless explicitly set)"
  (rest/server_test.go:39) suggests an explicit `/health` was meant to
  replace the built-in one.
- **HTTP shutdown on a done context.** When the server context is done,
  the HTTP variant shuts down under that same context, which is already
  cancelled (rest/server.go:95-96); `RestServer.Run` states that every graceful
  shutdown then runs under a context cancelled with the server context. A
  `Shutdown` with a connection still active therefore fails at once and main
  is closed. The gRPC variant shuts down under a fresh context from the
  background instead (`GrpcServer.ShutdownContexts`).
- **HTTP shutdown order.** `shutdownServers` stops main first, then
  metrics, and returns at the first failure, so metrics is never attempted
  when main fails (`RestServer.ShutdownPlanStopsAtFirstFailure`,
  `RestServer.MainFailureSkipsMetrics`).
- **Error increments on a stream.** The stream interceptor raises the error
  counter twice for a failing stream, once after the handler and once after
  the durations (`GrpcInterceptors.StreamREDInterceptor`). Its doc comment
  promises to record "the final status as an error if applicable"
  (grpc/interceptors.go:55), which reads as a single increment.

## Model

| member | source | states |
|---|---|---|
| Common.Bump | rest/middleware.go:53-55 | `Inc()` on one series raises that series by exactly one and leaves every other series as it was |
| Common.Wrap | rest/middleware.go:22-24 | a `%w`-wrapped error is the prefix, `": "`, then the inner error text unchanged |
| Strconv.NatToDecimal | rest/middleware.go:67-69 | the decimal spelling of a code is non-empty, all digits, with no leading zero |
| Strconv.Itoa | rest/middleware.go:67-69 | `strconv.Itoa` is non-empty and starts with `-` exactly for negative values |
| Strconv.ItoaRoundTrip | rest/middleware.go:67-69 | parsing what `Itoa` wrote gives back the integer |
| Strconv.ItoaInjective | rest/middleware.go:67-69 | distinct codes are spelled differently |
| Strconv.ItoaStatusCodes | rest/middleware.go:67-69 | 400 and 500 are spelled "400" and "500" |
| Strconv.DecimalValueOfNat | rest/middleware.go:67-69 | the value of the decimal spelling of n is n |
| Metrics.MatchesPatternIffValid | metrics/metrics.go:14-15 | the regular expression accepts exactly the non-empty names that start with a letter, `_` or `:` and continue with letters, digits, `_` or `:` |
| Metrics.InNameAccepts | metrics/metrics.go:14-15 | past the first character, the pattern accepts exactly strings of letters, digits, `_` and `:` |
| Metrics.RejectedIsFinal | metrics/metrics.go:14-15 | once a character falls outside its class, the anchored pattern cannot match |
| Metrics.ValidNamespace | metrics/metrics.go:14-15 | the character-class reading of the pattern: an accepted name is non-empty and made of letters, digits, `_` and `:` only, with no digit first |
| Metrics.NewRED | metrics/metrics.go:11-38 | an invalid namespace gives the error naming the pattern; a valid one gives exactly what the library returns for the caller's type and labels with error labels `["error"]` |
| Metrics.NewRedRejectsBeforeDelegating | metrics/metrics.go:14-17 | a rejected namespace gives the same error whatever the library would do, so the library is never consulted |
| Metrics.NewRedPassesOptionsThrough | metrics/metrics.go:19-37 | a built metric set carries the caller's namespace, request type, request labels and duration labels, and error labels `["error"]` |
| Metrics.NewRedMissingDurationLabels | metrics/metrics.go:19-34 | when the library refuses empty duration labels, so does `NewRED` |
| Metrics.NamespaceExamples | metrics/metrics.go:14-15 | `test_metrics` is accepted; the empty name, `123invalid`, `invalid-char!` and `invalid-namespace` are rejected |
| Metrics.WithRequest | grpc/interceptors.go:29-33 | the counts a handler sees have its own request series raised by one and every other series of every instrument unchanged |
| Metrics.RedMetrics.IncRequests | grpc/interceptors.go:30 | the request series rises by one; errors and durations are unchanged |
| Metrics.RedMetrics.IncErrors | grpc/interceptors.go:47 | the error series rises by one; requests and durations are unchanged |
| Metrics.RedMetrics.ObserveHistogram | grpc/interceptors.go:37-39 | one histogram observation is recorded; only a populated histogram is observed |
| Metrics.RedMetrics.ObserveSummary | grpc/interceptors.go:40-42 | one summary observation is recorded; only a populated summary is observed |
| Metrics.Registry.Register | rest/middleware.go:26-28 | registration fails exactly when the namespace is already registered, and then the registry is unchanged; otherwise the namespace is added |
| GrpcInterceptors.LastIndex | grpc/interceptors.go:106 | the result is the position of the last occurrence of the character, or -1 when there is none |
| GrpcInterceptors.CodeName | grpc/interceptors.go:46-47 | the error label of a gRPC status error is its code name; any other error is labelled `Unknown` |
| GrpcInterceptors.ExtractServiceMethod | grpc/interceptors.go:101-123 | no leading `/` gives the format error; success means the input is `"/" + service + "/" + method` with both parts non-empty and no `/` in method |
| GrpcInterceptors.LastSlashBeforeMethod | grpc/interceptors.go:106-112 | the last `/` of `/service/method` is the one before the method when the method has no `/` |
| GrpcInterceptors.ExtractServiceMethodRoundTrip | grpc/interceptors.go:106-122 | every `/service/method` with both parts non-empty and no `/` in method parses back to exactly those parts |
| GrpcInterceptors.ExtractOnlyLeadingSlash | grpc/interceptors.go:106-109 | a name whose only `/` is the leading one is a format error |
| GrpcInterceptors.ExtractServiceMissing | grpc/interceptors.go:114-116 | `//method` gives the service-name-missing error |
| GrpcInterceptors.ExtractMethodMissing | grpc/interceptors.go:118-120 | `/service/` gives the method-name-missing error |
| GrpcInterceptors.ExtractServiceMethodTooManyParts | grpc/interceptors.go:106-112 | `/too/many/parts` gives service `too/many` and method `parts` |
| GrpcInterceptors.ExtractServiceMethodMethodOnly | grpc/interceptors.go:106-109 | `/SayHello` gives `invalid gRPC method format: /SayHello` |
| GrpcInterceptors.UnaryREDInterceptor | grpc/interceptors.go:15-52 | a bad name returns its error with no counter touched and no handler call. Otherwise the handler sees the request already counted, its result is returned unchanged, requests rise by one, each populated duration instrument gets one observation, and errors rise by one under the code name iff the handler failed |
| GrpcInterceptors.StreamREDInterceptor | grpc/interceptors.go:57-98 | a bad name returns its error with nothing counted. Otherwise requests rise by one before the handler runs, the handler's error is returned unchanged, each populated duration instrument gets one observation, and a failing stream raises its error series by two while a successful one raises none |
| HttpMux.HealthBody | rest/server.go:32-34 | the health handler writes `Status: 200` |
| HttpMux.ServeMux.HandleFunc | rest/server.go:29 | registering a pattern already present panics and changes nothing; otherwise the pattern is routed to the handler |
| HttpMux.NewMetricsServer | rest/server.go:48-63 | the metrics server listens on the metrics host, serves only `/metrics`, and sets no timeouts and no header limit |
| RestMiddleware.ResponseWriter.constructor | rest/middleware.go:47-50 | the wrapper starts out holding 200 |
| RestMiddleware.ResponseWriter.WriteHeader | rest/middleware.go:73-76 | the wrapper stores the code and forwards the same code to the client's writer |
| RestMiddleware.ReplayEndsOnLastWrite | rest/middleware.go:73-76 | after a series of `WriteHeader` calls the wrapper holds the last code written, or its initial code if there was none |
| RestMiddleware.CapturedStatus | rest/middleware.go:73-76 | the captured status is what replaying every `WriteHeader` call on a fresh wrapper leaves: 200 or the last code written |
| RestMiddleware.ErrorSeries | rest/middleware.go:66-69 | a response is counted as an error exactly when its status is at least 400, under a single label that reads back as the status code, so different codes land in different series |
| RestMiddleware.ErrorSeriesExamples | rest/middleware.go:67-69 | 200 and 201 are not counted as errors; 400 and 500 are counted under "400" and "500" |
| RestMiddleware.REDMiddleware.ServeHTTP | rest/middleware.go:43-70 | every code the wrapped handler `next` writes is forwarded to the client's writer, in order. Requests rise by one under (path, verb) before the handler runs, each populated duration instrument gets one observation under the path, and errors rise by one under the code's decimal spelling iff the captured status is at least 400 |
| RestMiddleware.NewREDMiddleware | rest/middleware.go:20-34 | the metric set is built with type `http`, labels (path, verb) and duration label path. A construction error is wrapped with `failed to create RED metrics` and nothing is registered. An already-registered namespace gives `failed to register RED metrics: …`. Otherwise a fresh middleware with empty counters wraps `next` and its namespace is registered |
| RestMiddleware.HttpRED | rest/middleware.go:21 | an invalid namespace is rejected with the pattern error; a built set (from a library that keeps its options) has type `http`, request labels (path, verb), error labels `["error"]` and duration label path |
| RestMiddleware.RegisterTwice | rest/middleware.go:26-28 | on one registry, whenever the library builds the metric set, a second middleware for the same namespace is refused as a duplicate |
| Lifecycle.SignalLabel | rest/server.go:118-121 | the log signal text is the signal's name, or `context_cancelled` without a signal |
| RestServer.RouteTable | rest/server.go:25-39 | the routes are the caller's paths, each to its own handler, plus `/health` to the health check |
| RestServer.CreateRoutes | rest/server.go:25-39 | every caller route is registered with its handler and `/health` is added. The mux panics exactly when the caller supplied `/health` |
| RestServer.NewServer | rest/server.go:41-70 | a caller's `/health` panics. A middleware error is returned as it is, with the registry unchanged. The main server gets the API host, the read, write and idle timeouts, the header limit and a fresh RED middleware, with empty counters, around the route table. The metrics server gets the metrics host and only `/metrics` |
| RestServer.Attempts | rest/server.go:123-126 | one graceful shutdown per server, in order, under the given context |
| RestServer.ShutdownPlan | rest/server.go:123-131 | every graceful shutdown runs under the given context. A nil result means one graceful shutdown per server and nothing else; an error means graceful shutdowns of a prefix of the servers followed by exactly one close, as the last action |
| RestServer.ShutdownPlanAllSucceed | rest/server.go:123-131 | when every graceful shutdown succeeds, each server is shut down in order and the result is nil |
| RestServer.ShutdownPlanStopsAtFirstFailure | rest/server.go:123-130 | at the first failing server, the servers up to it have been shut down, it is closed, later servers are not touched, and `<name> server could not stopped gracefully: <err>` is returned |
| RestServer.ShutdownPlanSucceedsIffAllGraceful | rest/server.go:123-131 | the result is nil exactly when every graceful shutdown succeeds |
| RestServer.MainFailureSkipsMetrics | rest/server.go:108-130 | if main fails, main is closed, metrics is never attempted and the main error is returned |
| RestServer.ShutdownServers | rest/server.go:107-132 | the loop's action trace and error are those of the shutdown plan for main then metrics; the log text is the signal label |
| RestServer.Run | rest/server.go:79-105 | a done context shuts down under the server context with no signal (`context_cancelled`); a listener error returns `server error: <err>` and nothing is stopped; a signal shuts down under a timeout context derived from the server context, with that signal. Every graceful shutdown runs under a context cancelled with the server context |
| GrpcServer.ServerOptions | grpc/server.go:46-58 | the caller's options come first, then a unary chain and a stream chain, each with the library interceptor before the RED interceptor |
| GrpcServer.GrpcRED | grpc/server.go:38 | an invalid namespace is rejected with the pattern error; a built set (from a library that keeps its options) has type `grpc`, request and duration labels (service, method) and error labels `["error"]` |
| GrpcServer.Registrations | grpc/server.go:60-73 | the register callback runs exactly once when given and never when nil, and before reflection, the health service and metrics initialisation |
| GrpcServer.Server.constructor | grpc/server.go:69-91 | a new server holds its parts, its health service reports the overall server as serving, and nothing has been started |
| GrpcServer.Server.StartGrpc | grpc/server.go:111-123 | a listen failure delivers `failed to listen on <host>: <err>` and leaves health alone. Otherwise the service is marked SERVING after the listen and before Serve, and Serve's result is delivered |
| GrpcServer.GrpcShutdownPlan | grpc/server.go:140-180 | NOT_SERVING, graceful stop and the metrics shutdown come first, in that order. The result is nil iff metrics stopped and the server drained. A failed metrics shutdown closes metrics and returns its error without a forced stop. A forced stop happens iff the deadline came first |
| GrpcServer.Server.ShutdownServers | grpc/server.go:140-180 | the trace grows by the shutdown plan, the error is the plan's, and the service is NOT_SERVING afterwards |
| GrpcServer.Server.Run | grpc/server.go:101-138 | a done context shuts down under a fresh timeout context from the background with no signal (`context_cancelled`); a listener error returns `server error: <err>` and changes nothing; a signal shuts down under a timeout context from the server context, with that signal |
| GrpcServer.ShutdownContexts | grpc/server.go:126-136 | the context-done shutdown context is not cancelled with the server context; the signal one is |
| GrpcServer.NewServer | grpc/server.go:33-92 | the metric set is built with type `grpc` and (service, method) labels for requests and durations. Create and register errors are wrapped. Otherwise the server gets a fresh RED set with empty counters, the chained options, the registrations and the metrics server, and its namespace is registered |
| GrpcServer.ServeThenDrain | grpc/server.go:111-180 | a server that listens, serves and then drains on a signal goes SERVING and then NOT_SERVING, and stops gracefully with no error |

## Left out

- Goroutines, channels and `select`: the event `run` reacts to, how each
  graceful shutdown ends and whether the gRPC graceful stop drains before the
  deadline are inputs. The listener goroutines of `run` are not launched by
  `Run`; the gRPC one is modelled separately (`GrpcServer.Server.StartGrpc`).
- RestMiddleware.REDMiddleware.ServeHTTP: what the client finally sends is
  not modelled; net/http keeps only the first status written and ignores
  later ones, so for writes 500 then 200 the client sends 500 while the
  middleware, which captures the last write, counts no error. net/http also
  panics on a first code outside 100..999, and the wrapped handler may
  itself panic. In both cases the request is already counted but no
  duration or error is recorded, whereas the model records them (writes
  [1000] are counted under the error series "1000").
- Time: durations are not measured; the model records only that one
  observation is made per populated duration instrument.
- `slog` logging: only the signal text that the shutdown log records carry
  (`Lifecycle.SignalLabel`) is modelled.
- The metrics library (`strategy.NewRED`, its instruments and `Register`):
  construction is an arbitrary, possibly failing function of the options. The
  registry is reduced to the set of registered namespaces, and its refusal is
  modelled as the duplicate-registration error.
- `status.FromError`: an error is either a gRPC status with a code name or a
  plain error reported as `Unknown`; the mapping of Go errors to codes is not
  modelled.
- Label arity: the library panics when a series is selected with the wrong
  number of labels; the model does not check label counts.
- `http.ServeMux` pattern syntax and matching: patterns are compared as
  strings, so only the exact duplicate `/health` is detected; request
  routing is not modelled beyond the route table.
- `promhttp.Handler`, reflection, the gRPC health protocol and
  `grpc_prometheus` internals: each is a named handler, registration or
  interceptor.
- Network I/O (`Shutdown`, `Close`, `net.Listen`, `Serve`, `GracefulStop`,
  `Stop`): each is an action in a trace, with its outcome an input.
- `ListenAndServe` (rest/server.go:86,91 and grpc/server.go:107) is not
  modelled and appears in no trace; an error it returns reaches the model
  only as the `ListenerError` event of `Run`.
- After a failed metrics shutdown, the gRPC graceful stop goroutine keeps
  running and the `stopped` channel is never read; this leak is not
  modelled.
- The exported `Run` methods of both servers only subscribe to OS signals
  and call `run`; the signal subscription is not modelled.
- Configuration loading (`LoadConfig`) and the example programs are not part
  of this model.
