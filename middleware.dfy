/** The HTTP RED middleware (rest/middleware.go): a status-capturing wrapper
    around the response writer, and a handler that records Rate, Duration and
    Errors around the handler it wraps. */
module RestMiddleware {
  import opened Common
  import opened Metrics
  import opened HttpMux
  import Strconv

  /** The parts of an `*http.Request` the middleware reads. */
  datatype Request = Request(path: string, verb: string)

  /** The client's `http.ResponseWriter`, as far as status goes: every code
      the wrapper forwards to its `WriteHeader`, in order. */
  class ClientWriter {
    var headerWrites: seq<int>

    constructor ()
      ensures headerWrites == []
    {
      headerWrites := [];
    }

    method WriteHeader(code: int)
      modifies this
      ensures headerWrites == old(headerWrites) + [code]
    {
      headerWrites := headerWrites + [code];
    }
  }

  /** `responseWriter`: the client's writer plus the status captured so far. */
  class ResponseWriter {
    const inner: ClientWriter
    var statusCode: int

    /** The wrapper starts out holding `http.StatusOK`. */
    constructor (inner: ClientWriter)
      ensures this.inner == inner && statusCode == StatusOK
    {
      this.inner := inner;
      statusCode := StatusOK;
    }

    /** Store the code and forward the same code to the client's writer. */
    method WriteHeader(code: int)
      modifies this, inner
      ensures statusCode == code
      ensures inner.headerWrites == old(inner.headerWrites) + [code]
    {
      statusCode := code;
      inner.WriteHeader(code);
    }
  }

  /** The wrapper's status after replaying `writes` one call at a time on a
      wrapper that holds `status`: each call overwrites the previous one. */
  function Replay(status: int, writes: seq<int>): int
    decreases |writes|
  {
    if writes == [] then status else Replay(writes[0], writes[1..])
  }

  lemma {:induction false} ReplayEndsOnLastWrite(status: int, writes: seq<int>)
    ensures Replay(status, writes) == if writes == [] then status else writes[|writes| - 1]
    decreases |writes|
  {
    if writes != [] {
      ReplayEndsOnLastWrite(writes[0], writes[1..]);
    }
  }

  /** The status a wrapper holds once the wrapped handler has called
      `WriteHeader` with `writes`, in order: the last code written, or 200
      when nothing was written. It is what replaying every call on a fresh
      wrapper leaves behind. */
  function CapturedStatus(writes: seq<int>): (status: int)
    ensures status == Replay(StatusOK, writes)
  {
    ReplayEndsOnLastWrite(StatusOK, writes);
    if writes == [] then StatusOK else writes[|writes| - 1]
  }

  /** The error series a response with status `code` is counted under: none
      below 400, otherwise the decimal spelling of the code, which reads back
      as the code. */
  function ErrorSeries(code: int): (series: Option<Labels>)
    ensures series.Some? <==> code >= 400
    ensures series.Some? ==> |series.value| == 1 && Strconv.ParseInt(series.value[0]) == Some(code)
  {
    if code >= 400 then
      Strconv.ItoaRoundTrip(code);
      Some([Strconv.Itoa(code)])
    else
      None
  }

  /** The codes of the tests: 200 and 201 are not errors; 400 and 500 are
      counted under "400" and "500". */
  lemma ErrorSeriesExamples()
    ensures ErrorSeries(200) == None && ErrorSeries(201) == None
    ensures ErrorSeries(400) == Some(["400"]) && ErrorSeries(500) == Some(["500"])
  {
    Strconv.ItoaStatusCodes();
  }

  /** `REDMiddleware`: the metric set it records into and the handler it wraps. */
  class REDMiddleware {
    const red: RedMetrics
    const next: Handler

    constructor (red: RedMetrics, next: Handler)
      ensures this.red == red && this.next == next
    {
      this.red := red;
      this.next := next;
    }

    /** `ServeHTTP`. What a handler does for a request is the input
        `handlerWrites`: the codes the handler passes to `WriteHeader`, given
        the counters as they stand when it runs. The middleware calls it on
        the handler it wraps, `next`. */
    method ServeHTTP(w: ClientWriter, r: Request, handlerWrites: (Handler, RedCounts, Request) -> seq<int>)
      modifies red, w
      ensures var writes := handlerWrites(next, WithRequest(old(red.Counts()), [r.path, r.verb]), r);
        && w.headerWrites == old(w.headerWrites) + writes
        && red.requests == Bump(old(red.requests), [r.path, r.verb])
        && red.histogram == (if red.built.hasHistogram then Bump(old(red.histogram), [r.path]) else old(red.histogram))
        && red.summary == (if red.built.hasSummary then Bump(old(red.summary), [r.path]) else old(red.summary))
        && red.errors == match ErrorSeries(CapturedStatus(writes))
                         case Some(series) => Bump(old(red.errors), series)
                         case None => old(red.errors)
    {
      var rw := new ResponseWriter(w);

      red.IncRequests([r.path, r.verb]);

      var writes := handlerWrites(next, red.Counts(), r);
      var i := 0;
      while i < |writes|
        invariant 0 <= i <= |writes|
        invariant rw.inner == w
        invariant rw.statusCode == CapturedStatus(writes[..i])
        invariant w.headerWrites == old(w.headerWrites) + writes[..i]
        modifies rw, w
      {
        rw.WriteHeader(writes[i]);
        assert writes[..i + 1] == writes[..i] + [writes[i]];
        i := i + 1;
      }
      assert writes[..i] == writes;

      if red.built.hasHistogram {
        red.ObserveHistogram([r.path]);
      }
      if red.built.hasSummary {
        red.ObserveSummary([r.path]);
      }

      if rw.statusCode >= 400 {
        red.IncErrors([Strconv.Itoa(rw.statusCode)]);
      }
    }
  }

  /** The metric set every HTTP middleware asks for: type `http`, requests
      labelled by path and verb, durations by path. */
  function HttpRED(namespace: string, strategyNewRED: Strategy): (r: Result<Red>)
    ensures !ValidNamespace(namespace) ==> r == Err(NamespaceError)
    ensures KeepsOptions(strategyNewRED) && r.Ok? ==>
      r.value.opts == RedOpts(namespace, "http", ["path", "verb"], ["error"], ["path"])
  {
    NewRED(namespace, "http", ["path", "verb"], ["path"], strategyNewRED)
  }

  /** `NewREDMiddleware`: build the metric set, register it, wrap `next`. A
      construction failure registers nothing; a second registration of the
      namespace fails. */
  method NewREDMiddleware(registry: Registry, namespace: string, next: Handler, strategyNewRED: Strategy)
    returns (r: Result<REDMiddleware>)
    modifies registry
    ensures HttpRED(namespace, strategyNewRED).Err? ==>
      && r == Err(Wrap("failed to create RED metrics", HttpRED(namespace, strategyNewRED).error))
      && registry.registered == old(registry.registered)
    ensures HttpRED(namespace, strategyNewRED).Ok? ==>
      var red := HttpRED(namespace, strategyNewRED).value;
      if red.opts.namespace in old(registry.registered) then
        && r == Err(Wrap("failed to register RED metrics", AlreadyRegistered))
        && registry.registered == old(registry.registered)
      else
        && r.Ok? && fresh(r.value) && fresh(r.value.red)
        && r.value.next == next
        && r.value.red.built == red
        && r.value.red.Counts() == RedCounts(map[], map[], map[], map[])
        && registry.registered == old(registry.registered) + {red.opts.namespace}
  {
    var built := HttpRED(namespace, strategyNewRED);
    if built.Err? {
      return Err(Wrap("failed to create RED metrics", built.error));
    }

    var err := registry.Register(built.value);
    if err.Some? {
      return Err(Wrap("failed to register RED metrics", err.value));
    }

    var metrics := new RedMetrics(built.value);
    var m := new REDMiddleware(metrics, next);
    return Ok(m);
  }

  /** Constructing two middlewares under one namespace whose metric set the
      library builds, on a fresh registry: the first succeeds, the second is
      refused as a duplicate. */
  method RegisterTwice(namespace: string, strategyNewRED: Strategy)
    returns (first: Result<REDMiddleware>, second: Result<REDMiddleware>)
    requires HttpRED(namespace, strategyNewRED).Ok?
    ensures first.Ok?
    ensures second == Err(Wrap("failed to register RED metrics", AlreadyRegistered))
  {
    var registry := new Registry();
    first := NewREDMiddleware(registry, namespace, NilHandler, strategyNewRED);
    second := NewREDMiddleware(registry, namespace, NilHandler, strategyNewRED);
  }
}
