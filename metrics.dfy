/** The RED metric set: namespace validation and construction
    (metrics/metrics.go), the live instrument counts the interceptors update,
    and the process-wide registry that refuses a second registration. */
module Metrics {
  import opened Common

  /** The pattern the namespace must match, as `regexp.String()` prints it. */
  const NamespacePattern := "^[a-zA-Z_:][a-zA-Z0-9_:]*$"

  /** The error `NewRED` returns for a namespace that does not match. */
  const NamespaceError := "namespace must match " + NamespacePattern

  /** The one error label the metric set is built with. */
  const ErrorLabel := "error"

  predicate IsNameStart(c: char) {
    'a' <= c <= 'z' || 'A' <= c <= 'Z' || c == '_' || c == ':'
  }

  predicate IsNameChar(c: char) {
    IsNameStart(c) || '0' <= c <= '9'
  }

  /** A namespace is accepted iff it is non-empty, starts with a letter, `_` or
      `:`, and continues with letters, digits, `_` or `:`. */
  predicate ValidNamespace(s: string)
    ensures ValidNamespace(s) ==> s != "" && !('0' <= s[0] <= '9')
    ensures ValidNamespace(s) ==> forall i :: 0 <= i < |s| ==> IsNameChar(s[i])
  {
    |s| > 0 && IsNameStart(s[0]) && forall i :: 1 <= i < |s| ==> IsNameChar(s[i])
  }

  /** The same pattern read as a regular-expression engine reads it: a
      three-state automaton run over the characters, anchored at both ends. */
  datatype MatchState = AtStart | InName | Rejected

  function Step(q: MatchState, c: char): MatchState {
    match q
    case AtStart => if IsNameStart(c) then InName else Rejected
    case InName => if IsNameChar(c) then InName else Rejected
    case Rejected => Rejected
  }

  function RunFrom(q: MatchState, s: string): MatchState
    decreases |s|
  {
    if s == [] then q else RunFrom(Step(q, s[0]), s[1..])
  }

  predicate MatchesPattern(s: string) {
    RunFrom(AtStart, s) == InName
  }

  lemma {:induction false} RejectedIsFinal(s: string)
    ensures RunFrom(Rejected, s) == Rejected
  {
    if s != [] {
      RejectedIsFinal(s[1..]);
    }
  }

  lemma {:induction false} InNameAccepts(s: string)
    ensures RunFrom(InName, s) == InName <==> forall i :: 0 <= i < |s| ==> IsNameChar(s[i])
  {
    if s != [] {
      InNameAccepts(s[1..]);
      if !IsNameChar(s[0]) {
        RejectedIsFinal(s[1..]);
      }
      assert forall i :: 1 <= i < |s| ==> s[i] == s[1..][i - 1];
    }
  }

  /** The automaton and the character-class definition accept the same
      namespaces, so `ValidNamespace` is the regular expression. */
  lemma MatchesPatternIffValid(s: string)
    ensures MatchesPattern(s) <==> ValidNamespace(s)
  {
    if s != [] {
      if IsNameStart(s[0]) {
        InNameAccepts(s[1..]);
        assert forall i :: 1 <= i < |s| ==> s[i] == s[1..][i - 1];
      } else {
        RejectedIsFinal(s[1..]);
      }
    }
  }

  /** The options handed to the metrics library's RED constructor. */
  datatype RedOpts = RedOpts(
    namespace: string,
    requestType: string,
    requestLabels: seq<string>,
    errorLabels: seq<string>,
    durationLabels: seq<string>)

  /** What the library builds: the options it was given and which of the two
      duration instruments (histogram, summary) it populated. */
  datatype Red = Red(opts: RedOpts, hasHistogram: bool, hasSummary: bool)

  /** The library constructor `strategy.NewRED`, whose internals are not part of
      this model: it may succeed or fail for any options. */
  type Strategy = RedOpts -> Result<Red>

  /** A library constructor that, when it succeeds, keeps the options it was given. */
  ghost predicate KeepsOptions(strategyNewRED: Strategy) {
    forall o: RedOpts :: strategyNewRED(o).Ok? ==> strategyNewRED(o).value.opts == o
  }

  /** A library constructor that refuses an empty duration-label list. */
  ghost predicate RequiresDurationLabels(strategyNewRED: Strategy) {
    forall o: RedOpts :: o.durationLabels == [] ==> strategyNewRED(o).Err?
  }

  /** metrics.NewRED: check the namespace, then delegate with the caller's
      request type and labels, the fixed error label list and the caller's
      duration labels; a delegate failure is passed back as it is. */
  function NewRED(
    namespace: string,
    requestType: string,
    requestLabels: seq<string>,
    durationLabels: seq<string>,
    strategyNewRED: Strategy): (r: Result<Red>)
    ensures !ValidNamespace(namespace) ==> r == Err(NamespaceError)
    ensures ValidNamespace(namespace) ==>
      r == strategyNewRED(RedOpts(namespace, requestType, requestLabels, [ErrorLabel], durationLabels))
  {
    if !ValidNamespace(namespace) then
      Err(NamespaceError)
    else
      match strategyNewRED(RedOpts(namespace, requestType, requestLabels, [ErrorLabel], durationLabels))
      case Err(e) => Err(e)
      case Ok(red) => Ok(red)
  }

  /** A rejected namespace never reaches the library: the result is the same
      whatever the library would have done. */
  lemma NewRedRejectsBeforeDelegating(
    namespace: string, requestType: string, requestLabels: seq<string>, durationLabels: seq<string>,
    s1: Strategy, s2: Strategy)
    requires !ValidNamespace(namespace)
    ensures NewRED(namespace, requestType, requestLabels, durationLabels, s1)
         == NewRED(namespace, requestType, requestLabels, durationLabels, s2)
         == Err(NamespaceError)
  {
  }

  /** A built metric set carries the caller's namespace, request type and
      labels unchanged, and the error labels `["error"]`. */
  lemma NewRedPassesOptionsThrough(
    namespace: string, requestType: string, requestLabels: seq<string>, durationLabels: seq<string>,
    strategyNewRED: Strategy)
    requires KeepsOptions(strategyNewRED)
    requires NewRED(namespace, requestType, requestLabels, durationLabels, strategyNewRED).Ok?
    ensures ValidNamespace(namespace)
    ensures NewRED(namespace, requestType, requestLabels, durationLabels, strategyNewRED).value.opts
         == RedOpts(namespace, requestType, requestLabels, ["error"], durationLabels)
  {
  }

  /** With a library that needs duration labels, leaving them out fails construction. */
  lemma NewRedMissingDurationLabels(
    namespace: string, requestType: string, requestLabels: seq<string>, strategyNewRED: Strategy)
    requires RequiresDurationLabels(strategyNewRED)
    ensures NewRED(namespace, requestType, requestLabels, [], strategyNewRED).Err?
  {
  }

  /** The namespaces exercised by the tests: only the first is accepted. */
  lemma NamespaceExamples()
    ensures ValidNamespace("test_metrics")
    ensures !ValidNamespace("")
    ensures !ValidNamespace("123invalid")
    ensures !ValidNamespace("invalid-char!")
    ensures !ValidNamespace("invalid-namespace")
  {
    assert !IsNameChar("invalid-char!"[7]);
    assert !IsNameChar("invalid-namespace"[7]);
  }

  /** The counts of the three RED instruments, series by series; the duration
      instruments count observations (the observed values are not modelled). */
  datatype RedCounts = RedCounts(
    requests: map<Labels, nat>,
    errors: map<Labels, nat>,
    histogram: map<Labels, nat>,
    summary: map<Labels, nat>)

  /** The counts as a handler reads them while it runs: the request of its
      own call, under `labels`, is already counted. */
  function WithRequest(before: RedCounts, labels: Labels): (c: RedCounts)
    ensures Count(c.requests, labels) == Count(before.requests, labels) + 1
    ensures forall j :: j != labels ==> Count(c.requests, j) == Count(before.requests, j)
    ensures c.requests == Bump(before.requests, labels)
    ensures c.errors == before.errors && c.histogram == before.histogram && c.summary == before.summary
  {
    before.(requests := Bump(before.requests, labels))
  }

  /** The live instruments of one metric set, updated in place by every
      intercepted request. */
  class RedMetrics {
    const built: Red
    var requests: map<Labels, nat>
    var errors: map<Labels, nat>
    var histogram: map<Labels, nat>
    var summary: map<Labels, nat>

    function Counts(): RedCounts
      reads this
    {
      RedCounts(requests, errors, histogram, summary)
    }

    constructor (built: Red)
      ensures this.built == built
      ensures requests == map[] && errors == map[] && histogram == map[] && summary == map[]
    {
      this.built := built;
      requests, errors, histogram, summary := map[], map[], map[], map[];
    }

    /** `Requests.WithLabelValues(labels...).Inc()`. */
    method IncRequests(labels: Labels)
      modifies this
      ensures requests == Bump(old(requests), labels)
      ensures errors == old(errors) && histogram == old(histogram) && summary == old(summary)
    {
      requests := Bump(requests, labels);
    }

    /** `Errors.WithLabelValues(labels...).Inc()`. */
    method IncErrors(labels: Labels)
      modifies this
      ensures errors == Bump(old(errors), labels)
      ensures requests == old(requests) && histogram == old(histogram) && summary == old(summary)
    {
      errors := Bump(errors, labels);
    }

    /** `Duration.Histogram.WithLabelValues(labels...).Observe(d)`; only
        callable when the histogram was populated (the callers check). */
    method ObserveHistogram(labels: Labels)
      requires built.hasHistogram
      modifies this
      ensures histogram == Bump(old(histogram), labels)
      ensures requests == old(requests) && errors == old(errors) && summary == old(summary)
    {
      histogram := Bump(histogram, labels);
    }

    /** `Duration.Summary.WithLabelValues(labels...).Observe(d)`. */
    method ObserveSummary(labels: Labels)
      requires built.hasSummary
      modifies this
      ensures summary == Bump(old(summary), labels)
      ensures requests == old(requests) && errors == old(errors) && histogram == old(histogram)
    {
      summary := Bump(summary, labels);
    }
  }

  /** The text of the registry's refusal of a second registration. */
  const AlreadyRegistered := "duplicate metrics collector registration attempted"

  /** The process-wide metrics registry, reduced to the namespaces registered so far. */
  class Registry {
    var registered: set<string>

    constructor ()
      ensures registered == {}
    {
      registered := {};
    }

    /** `red.Register()`: a namespace can be registered once; a second attempt
        fails and leaves the registry as it was. */
    method Register(red: Red) returns (err: Option<string>)
      modifies this
      ensures err.Some? <==> red.opts.namespace in old(registered)
      ensures err.Some? ==> err.value == AlreadyRegistered && registered == old(registered)
      ensures err.None? ==> registered == old(registered) + {red.opts.namespace}
    {
      if red.opts.namespace in registered {
        err := Some(AlreadyRegistered);
      } else {
        registered := registered + {red.opts.namespace};
        err := None;
      }
    }
  }
}
