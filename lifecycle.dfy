/** The vocabulary the two server variants share for running and stopping:
    what ends a run, the contexts a shutdown runs under, and the side effects
    a server performs on its listeners, in the order it performs them. */
module Lifecycle {
  import opened Common

  /** The case `run`'s `select` takes: the server context is done, a listener
      goroutine delivered an error, or an interrupt/termination signal
      arrived. Which one happens first is up to the environment. */
  datatype RunEvent =
    | ContextDone
    | ListenerError(err: string)
    | SignalReceived(name: string)

  /** The context a shutdown runs under. */
  datatype Context =
    | ServerContext
    | Background
    | WithTimeout(parent: Context, timeout: int)

  /** Whether cancelling the server's own context also cancels `ctx`. */
  predicate DerivedFromServer(ctx: Context) {
    match ctx
    case ServerContext => true
    case Background => false
    case WithTimeout(parent, _) => DerivedFromServer(parent)
  }

  /** The side effects of starting and stopping, in the order they happen. */
  datatype Action =
    | Listen(host: string)
    | Serve
    | SetServingStatus(service: string, status: ServingStatus)
    | GracefulShutdown(server: string, ctx: Context)
    | Close(server: string)
    | GrpcGracefulStop
    | GrpcStop

  /** The statuses of the gRPC health service. */
  datatype ServingStatus = Serving | NotServing

  /** The action trace and the error a shutdown produced. */
  datatype ShutdownOutcome = ShutdownOutcome(actions: seq<Action>, err: Option<string>)

  /** The text the shutdown log records carry for the signal: the signal's
      name, or `context_cancelled` when there is no signal. */
  function SignalLabel(signal: Option<string>): (text: string)
    ensures signal.Some? ==> text == signal.value
    ensures signal.None? ==> text == "context_cancelled"
  {
    match signal
    case Some(name) => name
    case None => "context_cancelled"
  }
}
