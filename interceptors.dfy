/** The gRPC RED interceptors (grpc/interceptors.go): parsing the full method
    name of a call into service and method, and recording Rate, Errors and
    Duration around the unary and stream handlers. */
module GrpcInterceptors {
  import opened Common
  import opened Metrics

  /** A Go `error` as the interceptors see it: either a plain error, or a gRPC
      status error carrying its code name. */
  datatype Error = Plain(message: string) | Status(code: string, message: string)

  /** `status.FromError(err).Code().String()`: the code name of a status error;
      any other error reports `Unknown`. */
  function CodeName(e: Error): (name: string)
    ensures e.Status? ==> name == e.code
    ensures e.Plain? ==> name == "Unknown"
  {
    match e
    case Status(code, _) => code
    case Plain(_) => "Unknown"
  }

  /** `strings.LastIndex(s, string(c))`: the position of the last `c` in `s`,
      or -1 when there is none. */
  function LastIndex(s: string, c: char): (r: int)
    ensures -1 <= r < |s|
    ensures r >= 0 ==> s[r] == c
    ensures forall j :: r < j < |s| ==> s[j] != c
  {
    if s == [] then -1
    else if s[|s| - 1] == c then |s| - 1
    else LastIndex(s[..|s| - 1], c)
  }

  function FormatError(fullMethod: string): string {
    "invalid gRPC method format: " + fullMethod
  }

  function ServiceMissingError(fullMethod: string): string {
    "invalid gRPC method: service name missing in " + fullMethod
  }

  function MethodMissingError(fullMethod: string): string {
    "invalid gRPC method: method name missing in " + fullMethod
  }

  predicate HasLeadingSlash(s: string) {
    |s| > 0 && s[0] == '/'
  }

  /** extractServiceMethod: a call name must read `/service/method`, split at
      its last `/`, with both parts non-empty. */
  function ExtractServiceMethod(fullMethod: string): (r: Result<(string, string)>)
    ensures !HasLeadingSlash(fullMethod) ==> r == Err(FormatError(fullMethod))
    ensures r.Ok? ==>
      && fullMethod == "/" + r.value.0 + "/" + r.value.1
      && r.value.0 != "" && r.value.1 != ""
      && '/' !in r.value.1
  {
    if !HasLeadingSlash(fullMethod) then
      Err(FormatError(fullMethod))
    else
      var lastSlash := LastIndex(fullMethod, '/');
      if lastSlash <= 0 then
        Err(FormatError(fullMethod))
      else
        var serviceName := fullMethod[1..lastSlash];
        var methodName := fullMethod[lastSlash + 1..];
        if serviceName == "" then
          Err(ServiceMissingError(fullMethod))
        else if methodName == "" then
          Err(MethodMissingError(fullMethod))
        else
          assert fullMethod == "/" + serviceName + "/" + methodName;
          assert forall k :: 0 <= k < |methodName| ==> methodName[k] == fullMethod[lastSlash + 1 + k];
          Ok((serviceName, methodName))
  }

  /** The last `/` of `"/" + service + "/" + method` is the one before `method`
      whenever `method` holds no `/`. */
  lemma LastSlashBeforeMethod(serviceName: string, methodName: string)
    requires '/' !in methodName
    ensures LastIndex("/" + serviceName + "/" + methodName, '/') == |serviceName| + 1
  {
    var s := "/" + serviceName + "/" + methodName;
    var r := LastIndex(s, '/');
    assert s[|serviceName| + 1] == '/';
  }

  /** Every well-formed call name is parsed back into its parts: with the
      `Ok` clause of `ExtractServiceMethod`, success happens exactly for names
      of the form `/service/method` with both parts non-empty and no `/` in the
      method. */
  lemma ExtractServiceMethodRoundTrip(serviceName: string, methodName: string)
    requires serviceName != "" && methodName != "" && '/' !in methodName
    ensures ExtractServiceMethod("/" + serviceName + "/" + methodName) == Ok((serviceName, methodName))
  {
    var s := "/" + serviceName + "/" + methodName;
    LastSlashBeforeMethod(serviceName, methodName);
    assert s[1..|serviceName| + 1] == serviceName;
    assert s[|serviceName| + 2..] == methodName;
  }

  /** A name whose only `/` is the leading one (`/`, `/SayHello`) is a format error. */
  lemma ExtractOnlyLeadingSlash(rest: string)
    requires '/' !in rest
    ensures ExtractServiceMethod("/" + rest) == Err(FormatError("/" + rest))
  {
    var s := "/" + rest;
    assert s[0] == '/';
  }

  /** `//method`: the service part is empty. */
  lemma ExtractServiceMissing(methodName: string)
    requires '/' !in methodName
    ensures ExtractServiceMethod("//" + methodName) == Err(ServiceMissingError("//" + methodName))
  {
    LastSlashBeforeMethod("", methodName);
    assert "//" + methodName == "/" + "" + "/" + methodName;
  }

  /** `/service/`: the method part is empty. */
  lemma ExtractMethodMissing(serviceName: string)
    requires serviceName != ""
    ensures ExtractServiceMethod("/" + serviceName + "/") == Err(MethodMissingError("/" + serviceName + "/"))
  {
    var s := "/" + serviceName + "/";
    LastSlashBeforeMethod(serviceName, "");
    assert s == "/" + serviceName + "/" + "";
    assert s[1..|serviceName| + 1] == serviceName;
  }

  /** The last-separator rule on a test name: only the final segment is the method. */
  lemma ExtractServiceMethodTooManyParts()
    ensures ExtractServiceMethod("/too/many/parts") == Ok(("too/many", "parts"))
  {
    ExtractServiceMethodRoundTrip("too/many", "parts");
    assert "/too/many/parts" == "/" + "too/many" + "/" + "parts";
  }

  /** A method name without its service, from the tests, is a format error. */
  lemma ExtractServiceMethodMethodOnly()
    ensures ExtractServiceMethod("/SayHello") == Err("invalid gRPC method format: /SayHello")
  {
    ExtractOnlyLeadingSlash("SayHello");
    assert "/SayHello" == "/" + "SayHello";
  }

  /** One call through the interceptor returned by `UnaryREDInterceptor(red)`.
      `handler` is the wrapped handler; it is given the counters as they stand
      when it is called. */
  method UnaryREDInterceptor<Req, Resp>(
    red: RedMetrics,
    req: Req,
    fullMethod: string,
    handler: (RedCounts, Req) -> (Option<Resp>, Option<Error>))
    returns (resp: Option<Resp>, err: Option<Error>)
    modifies red
    ensures ExtractServiceMethod(fullMethod).Err? ==>
      && resp == None
      && err == Some(Plain(ExtractServiceMethod(fullMethod).error))
      && red.Counts() == old(red.Counts())
    ensures ExtractServiceMethod(fullMethod).Ok? ==>
      var labels := [ExtractServiceMethod(fullMethod).value.0, ExtractServiceMethod(fullMethod).value.1];
      && (resp, err) == handler(WithRequest(old(red.Counts()), labels), req)
      && red.requests == Bump(old(red.requests), labels)
      && red.histogram == (if red.built.hasHistogram then Bump(old(red.histogram), labels) else old(red.histogram))
      && red.summary == (if red.built.hasSummary then Bump(old(red.summary), labels) else old(red.summary))
      && red.errors == (if err.Some? then Bump(old(red.errors), [CodeName(err.value)]) else old(red.errors))
  {
    var parsed := ExtractServiceMethod(fullMethod);
    if parsed.Err? {
      return None, Some(Plain(parsed.error));
    }
    var labels := [parsed.value.0, parsed.value.1];

    red.IncRequests(labels);

    var outcome := handler(red.Counts(), req);
    resp, err := outcome.0, outcome.1;

    if red.built.hasHistogram {
      red.ObserveHistogram(labels);
    }
    if red.built.hasSummary {
      red.ObserveSummary(labels);
    }

    if err.Some? {
      red.IncErrors([CodeName(err.value)]);
    }
  }

  /** One stream through the interceptor returned by `StreamREDInterceptor(red)`.
      A failing stream raises its error series twice: once right after the
      handler returns and once after the duration is recorded. */
  method StreamREDInterceptor<Srv>(
    red: RedMetrics,
    srv: Srv,
    fullMethod: string,
    handler: (RedCounts, Srv) -> Option<Error>)
    returns (err: Option<Error>)
    modifies red
    ensures ExtractServiceMethod(fullMethod).Err? ==>
      && err == Some(Plain(ExtractServiceMethod(fullMethod).error))
      && red.Counts() == old(red.Counts())
    ensures ExtractServiceMethod(fullMethod).Ok? ==>
      var labels := [ExtractServiceMethod(fullMethod).value.0, ExtractServiceMethod(fullMethod).value.1];
      && err == handler(WithRequest(old(red.Counts()), labels), srv)
      && red.requests == Bump(old(red.requests), labels)
      && red.histogram == (if red.built.hasHistogram then Bump(old(red.histogram), labels) else old(red.histogram))
      && red.summary == (if red.built.hasSummary then Bump(old(red.summary), labels) else old(red.summary))
      && (err.None? ==> red.errors == old(red.errors))
      && (err.Some? ==>
            && red.errors == Bump(Bump(old(red.errors), [CodeName(err.value)]), [CodeName(err.value)])
            && Count(red.errors, [CodeName(err.value)]) == Count(old(red.errors), [CodeName(err.value)]) + 2)
  {
    var parsed := ExtractServiceMethod(fullMethod);
    if parsed.Err? {
      return Some(Plain(parsed.error));
    }
    var labels := [parsed.value.0, parsed.value.1];

    red.IncRequests(labels);

    err := handler(red.Counts(), srv);
    if err.Some? {
      red.IncErrors([CodeName(err.value)]);
    }

    if red.built.hasHistogram {
      red.ObserveHistogram(labels);
    }
    if red.built.hasSummary {
      red.ObserveSummary(labels);
    }

    if err.Some? {
      red.IncErrors([CodeName(err.value)]);
    }
  }
}
