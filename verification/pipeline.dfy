/**
 * The middleware chain built by `register_middleware`. The server composes
 * the registered stages so that the last one added runs first: each stage
 * wraps every stage registered before it, and the innermost one wraps the
 * request handler.
 */
module Pipeline {
  import opened Wrappers
  import opened Mcp
  import opened RateLimiting
  import opened ErrorHandling
  import opened PerformanceMonitoring
  import opened Security

  datatype StageKind =
    | SecurityStage
    | ErrorHandlingStage
    | RateLimitingStage
    | PerformanceStage
    | TimingStage
    | LoggingStage

  /** The order of the `add_middleware` calls in `register_middleware`. */
  const Registration: seq<StageKind> :=
    [SecurityStage, ErrorHandlingStage, RateLimitingStage, PerformanceStage, TimingStage, LoggingStage]

  /** The order in which a request meets the stages: last registered first. */
  function ExecutionOrder(registered: seq<StageKind>): (order: seq<StageKind>)
    ensures |order| == |registered|
  {
    if registered == [] then []
    else [registered[|registered| - 1]] + ExecutionOrder(registered[..|registered| - 1])
  }

  /** The i-th stage a request meets is the i-th from the end of the registration. */
  lemma {:induction false} ExecutionOrderAt(registered: seq<StageKind>, i: nat)
    requires i < |registered|
    ensures ExecutionOrder(registered)[i] == registered[|registered| - 1 - i]
  {
    if i > 0 {
      ExecutionOrderAt(registered[..|registered| - 1], i - 1);
    }
  }

  /** Logging, Timing, Performance, RateLimiting, ErrorHandling, Security, then the handler. */
  lemma RegisteredOrder()
    ensures ExecutionOrder(Registration) == ServeOrder
  {
    var order := ExecutionOrder(Registration);
    forall i | 0 <= i < 6 ensures order[i] == Registration[5 - i] {
      ExecutionOrderAt(Registration, i);
    }
  }

  /** The constructor arguments that shape behaviour. */
  datatype Config = Config(blockSuspicious: bool, transformErrors: bool, maxRequestsPerMinute: int, perClient: bool)

  /** The arguments `register_middleware` passes. */
  const Registered := Config(true, true, 120, true)

  /** The tables the stages update: rate windows, error counts, performance records. */
  datatype PipelineState = PipelineState(windows: map<string, seq<int>>, errorCounts: map<string, nat>, perf: PerfState)

  /**
   * The reply a client sees, the tables afterwards, whether the handler ran,
   * and the stages the request entered, outermost first.
   */
  datatype Dispatched = Dispatched(reply: Reply, state: PipelineState, handlerCalled: bool, entered: seq<StageKind>)

  /** The execution order of the registered chain. */
  const ServeOrder: seq<StageKind> :=
    [LoggingStage, TimingStage, PerformanceStage, RateLimitingStage, ErrorHandlingStage, SecurityStage]

  /**
   * SecurityMiddleware around the handler: a blocked request raises before
   * `call_next`, so the handler does not run.
   */
  function Secured(cfg: Config, st: PipelineState, req: Request, handler: Request -> Reply): Dispatched {
    var rejection := Screen(cfg.blockSuspicious, req);
    if rejection.Some? then Dispatched(Raised(rejection.value), st, false, [SecurityStage])
    else Dispatched(handler(req), st, true, [SecurityStage])
  }

  /** ErrorHandlingMiddleware after `call_next` returned `inner`: counts and rewrites a failure. */
  function ErrorHandled(cfg: Config, req: Request, inner: Dispatched): Dispatched {
    var h := Handle(cfg.transformErrors, inner.state.errorCounts, req, inner.reply);
    Dispatched(h.reply, inner.state.(errorCounts := h.counts), inner.handlerCalled, [ErrorHandlingStage] + inner.entered)
  }

  /**
   * RateLimitingMiddleware around ErrorHandling around Security: a full
   * window raises before `call_next`; otherwise the request is recorded and
   * passed inwards.
   */
  function RateLimited(cfg: Config, st: PipelineState, req: Request, now: int, handler: Request -> Reply): Dispatched {
    var key := ClientKey(cfg.perClient, req);
    var a := Admit(WindowOf(st.windows, key), now, cfg.maxRequestsPerMinute);
    var st1 := st.(windows := st.windows[key := a.window]);
    if a.rejection.Some? then Dispatched(Raised(a.rejection.value), st1, false, [RateLimitingStage])
    else
      var d := ErrorHandled(cfg, req, Secured(cfg, st1, req, handler));
      Dispatched(d.reply, d.state, d.handlerCalled, [RateLimitingStage] + d.entered)
  }

  /** PerformanceMonitoringMiddleware after `call_next` returned `inner`: records the call. */
  function Performed(req: Request, duration: real, inner: Dispatched): Dispatched {
    Dispatched(inner.reply, inner.state.(perf := Record(inner.state.perf, req.methodName, duration, inner.reply.Raised?)),
               inner.handlerCalled, [PerformanceStage] + inner.entered)
  }

  /**
   * One request through the chain that `register_middleware` builds, in the
   * order `ServeOrder`: Logging and Timing only observe, Performance wraps
   * the rate limiter, which wraps ErrorHandling, which wraps Security, which
   * wraps the handler.
   */
  function Serve(st: PipelineState, req: Request, now: int, duration: real, handler: Request -> Reply): Dispatched {
    var d := Performed(req, duration, RateLimited(Registered, st, req, now, handler));
    Dispatched(d.reply, d.state, d.handlerCalled, [LoggingStage, TimingStage] + d.entered)
  }

  /** The admission check of the registered rate limiter for this request. */
  function AdmissionOf(st: PipelineState, req: Request, now: int): Admission {
    Admit(WindowOf(st.windows, ClientKey(true, req)), now, 120)
  }

  /** The rate windows once the registered rate limiter has checked this request. */
  function AdmittedState(st: PipelineState, req: Request, now: int): PipelineState {
    st.(windows := st.windows[ClientKey(true, req) := AdmissionOf(st, req, now).window])
  }

  /**
   * A request refused by the rate limiter: the client gets the rate-limit
   * ToolError unchanged; it never reaches ErrorHandling (so no error is
   * counted there), Security or the handler; the performance monitor, which
   * is outside the rate limiter, records it as a failure.
   */
  lemma RateRejectionIsNotCounted(st: PipelineState, req: Request, now: int, duration: real, handler: Request -> Reply)
    requires AdmissionOf(st, req, now).rejection.Some?
    ensures var d := Serve(st, req, now, duration, handler);
            && d.reply == Raised(RateLimitError(120))
            && d.state.errorCounts == st.errorCounts
            && !d.handlerCalled
            && d.state.perf == Record(st.perf, req.methodName, duration, true)
            && d.state.windows == AdmittedState(st, req, now).windows
  {
  }

  /**
   * An admitted request that Security blocks: the client gets Security's
   * ToolError unchanged, ErrorHandling (outside Security) counts it once
   * under "ToolError:<method>", the handler does not run, and the request
   * stays recorded in the rate window.
   */
  lemma SecurityBlockIsCounted(st: PipelineState, req: Request, now: int, duration: real, handler: Request -> Reply)
    requires AdmissionOf(st, req, now).rejection.None?
    requires IsSuspicious(req.message)
    ensures var d := Serve(st, req, now, duration, handler);
            var key := ErrorKey(Error(ToolError, BlockedMessage), req.methodName);
            && d.reply == Raised(Error(ToolError, BlockedMessage))
            && key == "ToolError:" + MethodText(req.methodName)
            && (forall k :: Count(d.state.errorCounts, k) == Count(st.errorCounts, k) + (if k == key then 1 else 0))
            && !d.handlerCalled
            && d.state.windows == AdmittedState(st, req, now).windows
            && d.state.perf == Record(st.perf, req.methodName, duration, true)
  {
    HandleCounts(true, st.errorCounts, req, Raised(Error(ToolError, BlockedMessage)));
  }

  /**
   * The chain `Serve` runs is the one `register_middleware` registers: the
   * stages a request enters are a prefix of the reversed registration. An
   * admitted request enters all six, a refused one stops at the rate
   * limiter, and the handler runs only after the whole chain.
   */
  lemma ServeFollowsRegistration(st: PipelineState, req: Request, now: int, duration: real, handler: Request -> Reply)
    ensures var d := Serve(st, req, now, duration, handler);
            var order := ExecutionOrder(Registration);
            && d.entered <= order
            && (AdmissionOf(st, req, now).rejection.None? <==> d.entered == order)
            && (AdmissionOf(st, req, now).rejection.Some? ==> d.entered == order[..4])
            && (d.handlerCalled ==> d.entered == order)
  {
    RegisteredOrder();
  }

  /** The handler runs exactly when the rate limiter admits the request and Security finds nothing suspicious. */
  lemma HandlerRunsIffAdmittedAndClean(st: PipelineState, req: Request, now: int, duration: real, handler: Request -> Reply)
    ensures Serve(st, req, now, duration, handler).handlerCalled <==>
              AdmissionOf(st, req, now).rejection.None? && !IsSuspicious(req.message)
  {
  }

  /**
   * What the handler returns, once it runs: a result reaches the client
   * unchanged with nothing counted as an error; a failure is counted once
   * by ErrorHandling and reaches the client rewritten by method prefix.
   */
  lemma HandlerOutcomeReachesClient(st: PipelineState, req: Request, now: int, duration: real, handler: Request -> Reply)
    requires AdmissionOf(st, req, now).rejection.None?
    requires !IsSuspicious(req.message)
    ensures var d := Serve(st, req, now, duration, handler);
            && (handler(req).Done? ==> d.reply == handler(req) && d.state.errorCounts == st.errorCounts)
            && (handler(req).Raised? ==>
                  && d.reply == Raised(Rewrite(true, req.methodName, handler(req).error))
                  && forall k :: Count(d.state.errorCounts, k) ==
                                 Count(st.errorCounts, k) + (if k == ErrorKey(handler(req).error, req.methodName) then 1 else 0))
            && d.state.perf == Record(st.perf, req.methodName, duration, d.reply.Raised?)
  {
    HandleCounts(true, st.errorCounts, req, handler(req));
  }

  /** The server's middleware chain and the tables its stages own. */
  class Server {
    const registered: seq<StageKind>
    const cfg: Config
    const rate: RateLimiter
    const errors: ErrorHandler
    const perf: PerfMonitor

    ghost predicate Valid()
      reads this, rate, errors, perf
    {
      && registered == Registration
      && rate as object != perf as object && rate as object != errors as object && errors as object != perf as object
      && rate.Valid() && perf.Valid()
      && rate.maxRequestsPerMinute == cfg.maxRequestsPerMinute
      && rate.perClient == cfg.perClient
      && errors.transformErrors == cfg.transformErrors
    }

    function State(): PipelineState
      reads rate, errors, perf
    {
      PipelineState(rate.clientRequests, errors.errorCounts, perf.State())
    }

    /** `register_middleware`: the six stages, with the arguments it passes, in its order. */
    constructor RegisterMiddleware()
      ensures Valid() && fresh(rate) && fresh(errors) && fresh(perf)
      ensures registered == Registration && cfg == Registered
      ensures State() == PipelineState(map[], map[], PerfState(map[], map[], map[]))
    {
      registered := Registration;
      cfg := Registered;
      rate := new RateLimiter(120, true);
      errors := new ErrorHandler(true);
      perf := new PerfMonitor();
    }

    /**
     * One request through the whole chain; `now` is the wall-clock time the
     * rate limiter reads and `duration` what the performance monitor measures.
     */
    method Dispatch(req: Request, now: int, duration: real, handler: Request -> Reply)
      returns (reply: Reply, handlerCalled: bool, ghost entered: seq<StageKind>)
      requires Valid() && cfg == Registered
      modifies rate, errors, perf
      ensures Valid()
      ensures Dispatched(reply, State(), handlerCalled, entered) == Serve(old(State()), req, now, duration, handler)
      ensures entered <= ExecutionOrder(registered)
    {
      ghost var before := State();
      // Logging and Timing only observe; Performance calls the rest, then records.
      var inner;
      ghost var innerEntered;
      inner, handlerCalled, innerEntered := RunRateLimited(req, now, handler);
      reply := perf.OnRequest(req.methodName, duration, inner);
      entered := [LoggingStage, TimingStage] + ([PerformanceStage] + innerEntered);
      ServeFollowsRegistration(before, req, now, duration, handler);
    }

    /** RateLimiting, ErrorHandling and Security around the handler. */
    method RunRateLimited(req: Request, now: int, handler: Request -> Reply)
      returns (reply: Reply, handlerCalled: bool, ghost entered: seq<StageKind>)
      requires Valid()
      modifies rate, errors
      ensures Valid() && unchanged(perf)
      ensures Dispatched(reply, State(), handlerCalled, entered) == RateLimited(cfg, old(State()), req, now, handler)
    {
      var rejection := rate.OnRequest(req, now);
      if rejection.Some? {
        reply, handlerCalled, entered := Raised(rejection.value), false, [RateLimitingStage];
        return;
      }
      var inner;
      ghost var innerEntered;
      inner, handlerCalled, innerEntered := RunSecured(req, handler);
      reply := errors.OnMessage(req, inner);
      entered := [RateLimitingStage] + ([ErrorHandlingStage] + innerEntered);
    }

    /** SecurityMiddleware: raises for a suspicious request, otherwise calls the handler. */
    method RunSecured(req: Request, handler: Request -> Reply)
      returns (reply: Reply, handlerCalled: bool, ghost entered: seq<StageKind>)
      ensures Dispatched(reply, State(), handlerCalled, entered) == Secured(cfg, State(), req, handler)
    {
      entered := [SecurityStage];
      var rejection := Screen(cfg.blockSuspicious, req);
      if rejection.Some? {
        reply, handlerCalled := Raised(rejection.value), false;
      } else {
        reply, handlerCalled := handler(req), true;
      }
    }
  }
}
