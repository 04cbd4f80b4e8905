/** The HTTP request multiplexer both servers route through, and the handlers
    they register on it. */
module HttpMux {
  import Strconv

  const StatusOK := 200
  const HealthPath := "/health"
  const MetricsPath := "/metrics"

  /** The handlers the servers install. A caller's handler function is known
      only by its identity; the health handler, the metrics exposition handler
      and a whole multiplexer are handlers too. */
  datatype Handler =
    | UserHandler(id: nat)
    | HealthHandler
    | MetricsHandler
    | MuxHandler(mux: ServeMux)
    | NilHandler

  /** The body the health handler writes, with no explicit status (so 200). */
  function HealthBody(): (body: string)
    ensures body == "Status: 200"
  {
    "Status: " + Strconv.Itoa(StatusOK)
  }

  /** `http.ServeMux`: patterns and the handler each is routed to. */
  class ServeMux {
    var patterns: map<string, Handler>

    constructor ()
      ensures patterns == map[]
    {
      patterns := map[];
    }

    /** `Handle`/`HandleFunc`: add a pattern. Registering a pattern that is
        already registered panics; the panic is reported as `panicked` and
        nothing is added. */
    method HandleFunc(pattern: string, h: Handler) returns (panicked: bool)
      modifies this
      ensures panicked <==> pattern in old(patterns)
      ensures panicked ==> patterns == old(patterns)
      ensures !panicked ==> patterns == old(patterns)[pattern := h]
    {
      panicked := pattern in patterns;
      if !panicked {
        patterns := patterns[pattern := h];
      }
    }
  }

  /** The fields of an `http.Server` the servers set: address, handler,
      timeouts (in nanoseconds, 0 meaning none) and header size limit. */
  datatype HttpServer<H> = HttpServer(
    addr: string,
    handler: H,
    readTimeout: int,
    writeTimeout: int,
    idleTimeout: int,
    maxHeaderBytes: int)

  /** The metrics server both variants build: `/metrics` only, on the
      metrics host, with every other field left at its zero value. */
  method NewMetricsServer(host: string) returns (s: HttpServer<Handler>)
    ensures s.addr == host && s.handler.MuxHandler? && fresh(s.handler.mux)
    ensures s.handler.mux.patterns == map[MetricsPath := MetricsHandler]
    ensures s.readTimeout == 0 && s.writeTimeout == 0 && s.idleTimeout == 0 && s.maxHeaderBytes == 0
  {
    var metricsMux := new ServeMux();
    var _ := metricsMux.HandleFunc(MetricsPath, MetricsHandler);
    s := HttpServer(host, MuxHandler(metricsMux), 0, 0, 0, 0);
  }
}
