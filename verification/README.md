# RivalSearchMCP core in Dafny

This project models two parts of the RivalSearchMCP server and proves properties of them.

The first part is the **request middleware** of `src/middleware/middleware.py`. The server registers six stages:

- security filtering;
- error handling;
- rate limiting;
- performance monitoring;
- timing;
- payload logging.

They are composed so that the stage added last runs first, as the comment at middleware.py:250 says; `fastmcp` itself is not part of this model (see "## Left out"). Each stateful stage is a class whose fields are the tables the Python object updates in place. The methods are the part of `on_request`/`on_message` before `call_next` and the part after it:

- `RateLimiter.clientRequests`;
- `ErrorHandler.errorCounts`;
- `PerfMonitor.operationTimes`, `operationCounts` and `errorCounts`.

Each method is proved against a pure function of the old state. `Pipeline.Server` holds the chain that `register_middleware` builds, and `Server.Dispatch` runs one request through it. The lemmas beside `Pipeline.Serve` say which stage sees what:

- a request the rate limiter refuses is recorded as a failure by the performance monitor, but is never counted by the error handler;
- a request Security blocks is counted once as `ToolError:<method>`;
- the handler runs exactly when the request is admitted and clean.

The second part is the **multi-engine search** of `src/tools/multi_search.py`. The orchestrator asks the Bing, DuckDuckGo and Yahoo adapters one after the other in that priority order. It writes a `success`, `no_results` or `failed` entry per engine and a numeric summary:

- `search_all_engines` stops at the first raising engine unless failures are tolerated;
- `search_with_fallback` asks Bing alone first and runs the tolerant full sweep only when Bing raised or found nothing;
- the `multi_search` tool wraps any exception into a `failed` answer.

The orchestrator is a class that logs its `search` and `close` calls. The adapters are a function from (engine, parameters, call number) to an outcome, so the model says exactly which calls are made and in which order.

The search records of `src/core/search/models/base.py` are modelled with their dataclass defaults, `__post_init__` and `to_dict`. The result dataclass is a class whose computed fields `PostInit` completes in place. Each `to_dict` is shown to lose nothing by reading its dictionary back.

Files, one module each:

- `wrappers.dfy`: Option;
- `mcp.dfy`: the request, error and reply values;
- `rate_limiting.dfy`;
- `error_handling.dfy`;
- `performance.dfy`;
- `security.dfy`;
- `request_logging.dfy`;
- `pipeline.dfy`;
- `search_models.dfy`;
- `multi_search.dfy`.

Modelling choices:

- **Time and hashing.** The wall clock `time.time()` is an integer parameter `now`. A measured duration is a `real` parameter. `datetime.now().isoformat()` is a string parameter `now`, and one value is used for every timestamp written during a call. `hashlib.md5(...).hexdigest()` is a function parameter `md5`.
- **`fastmcp` types.** `ToolError`, `ResourceError` and `PromptError` are the three protocol error kinds. Any other exception class is `OtherError(name)`.
- **Dictionary keys.** Every dictionary key of a `to_dict` is an enumerated key whose `Name()` is the Python string. The lemmas `*KeyNamesDistinct` show these names are distinct.

## Model

| member | source | states |
|---|---|---|
| RateLimiting.ClientKey | src/middleware/middleware.py:90-94 | the key is "global" without per-client limiting or without a context, the client id when it is present and non-empty, "unknown" otherwise; never empty |
| RateLimiting.RecentSpec | src/middleware/middleware.py:100-105 | pruning keeps exactly the timestamps later than the cutoff, each with its multiplicity, never grows the window, keeps a fully recent window whole and empties a fully stale one |
| RateLimiting.AdmitSpec | src/middleware/middleware.py:96-116 | a request is refused exactly when the pruned window already holds the limit; a refused request is not recorded, an admitted one is appended; the stored window holds only the last 60 seconds and never more than the limit |
| RateLimiting.BurstAdmitsUpToLimit | src/middleware/middleware.py:96-116 | for requests within one 60-second span, the i-th is admitted exactly when the prior window size plus i is below the limit |
| RateLimiting.FirstMaxRequestsPass | src/middleware/middleware.py:107-116 | from an empty window, within one minute, exactly the first `max_requests_per_minute` requests pass |
| RateLimiting.ElapsedWindowAdmits | src/middleware/middleware.py:100-116 | once every recorded request is 60 or more seconds old, a request passes exactly when the limit is positive, leaving a window of that one request |
| RateLimiting.RateLimiter.constructor | src/middleware/middleware.py:84-88 | keeps the limit and the per-client flag, and starts with no windows |
| RateLimiting.RateLimiter.OnRequest | src/middleware/middleware.py:96-118 | raises the rate-limit ToolError exactly as the admission rule says and stores the pruned (and, if admitted, extended) window under the caller's key only; keeps every window within the limit |
| ErrorHandling.Rewrite | src/middleware/middleware.py:145-162 | with transformation off, or for a protocol error, the error is re-raised unchanged; with transformation on the raised error is always a protocol error |
| ErrorHandling.RewriteKeepsMessage | src/middleware/middleware.py:150-160 | a rewritten error's message ends with the original message |
| ErrorHandling.RewriteByMethodPrefix | src/middleware/middleware.py:152-160 | the four rules by method prefix ("tools/", "resources/", "prompts/", anything else or None) with their error classes and message prefixes |
| ErrorHandling.RewriteIsFinal | src/middleware/middleware.py:146-160 | a rewritten error passes an outer error handler unchanged, whatever that handler's method |
| ErrorHandling.Handle | src/middleware/middleware.py:130-162 | a result passes through; a failure is re-raised as `Rewrite` says |
| ErrorHandling.HandleCounts | src/middleware/middleware.py:134-137 | a result changes no count; a failure adds its "<Type>:<method>" key and raises that count, and only that one, by one |
| ErrorHandling.ErrorHandler.constructor | src/middleware/middleware.py:124-128 | keeps the transformation flag and starts with no counts |
| ErrorHandling.ErrorHandler.OnMessage | src/middleware/middleware.py:130-162 | the reply and the new `error_counts` are those of `Handle` on the old counts |
| PerformanceMonitoring.RecordCounts | src/middleware/middleware.py:174-200 | both outcomes count the call, only a failure counts an error, and every other operation's samples and counters are untouched |
| PerformanceMonitoring.RecordSamples | src/middleware/middleware.py:180-197 | the samples end with the new duration; a success keeps the last `min(n+1, 100)` of the extended list, a failure appends without cutting |
| PerformanceMonitoring.RecordKeepsConsistent | src/middleware/middleware.py:168-200 | recording preserves the invariant that each counted operation has between one sample and one per call, and no more failures than calls |
| PerformanceMonitoring.FailuresAreNotTrimmed | src/middleware/middleware.py:192-200 | a run of k failures adds exactly k samples, so the list grows past 100 |
| PerformanceMonitoring.MetricsInRange | src/middleware/middleware.py:202-218 | a reported operation has count > 0, errors <= count, and a success rate in [0, 1] that is 1 exactly with no errors and 0 exactly when every call failed |
| PerformanceMonitoring.PerfMonitor.constructor | src/middleware/middleware.py:168-172 | starts with empty tables, which satisfy the invariant |
| PerformanceMonitoring.PerfMonitor.OnRequest | src/middleware/middleware.py:174-200 | passes the outcome on unchanged; the new tables are `Record` of the old ones; keeps the invariant |
| PerformanceMonitoring.PerfMonitor.Metrics | src/middleware/middleware.py:202-218 | one entry per counted operation, each with its call count, error count and success rate |
| Security.ContainsSpec | src/middleware/middleware.py:235 | the substring scan succeeds exactly when the pattern occurs at some position |
| Security.AnyOccursSpec | src/middleware/middleware.py:235 | the scan over a pattern list succeeds exactly when one of the patterns occurs |
| Security.IsSuspiciousSpec | src/middleware/middleware.py:232-235 | a message is suspicious exactly when one of the eight patterns occurs in its lower-cased form |
| Security.LowerIdempotent | src/middleware/middleware.py:234 | lower-casing twice is lower-casing once |
| Security.SuspicionIgnoresCase | src/middleware/middleware.py:232-235 | messages equal up to letter case get the same verdict |
| Security.PatternsAreLowerCase | src/middleware/middleware.py:227-230 | every pattern is already lower case, so each can match a lower-cased message |
| Security.DropTableIsSuspicious | src/middleware/middleware.py:227-235 | "DROP TABLE users" and "drop table users" are both suspicious |
| Security.Screen | src/middleware/middleware.py:237-244 | the request is refused exactly when blocking is on and the message is suspicious, always with the "Request blocked due to security concerns" ToolError |
| RequestLogging.SliceTo | src/middleware/middleware.py:66 | Python's `s[:n]`: a prefix of `s`, of length min(n, len s) for n >= 0 and max(len s + n, 0) for negative n |
| RequestLogging.LoggedPayload | src/middleware/middleware.py:65-69 | a message within the limit is logged whole; a longer one is cut to the limit and marked "... [truncated]"; the result is at most the limit plus the marker long |
| Pipeline.ExecutionOrderAt | src/middleware/middleware.py:250-256 | the i-th stage a request meets is the i-th from the end of the registration |
| Pipeline.RegisteredOrder | src/middleware/middleware.py:250-256 | the registration list, reversed, is Logging, Timing, Performance, RateLimiting, ErrorHandling, Security |
| Pipeline.ServeFollowsRegistration | src/middleware/middleware.py:250-256 | the stages a request enters in `Serve` are a prefix of the reversed registration: all six when admitted, up to the rate limiter when refused, and the whole chain whenever the handler runs |
| Pipeline.RateRejectionIsNotCounted | src/middleware/middleware.py:250-256 | a request refused by the rate limiter reaches the client as the rate-limit ToolError, is not counted by ErrorHandling, does not run the handler, and is recorded as a failure by the performance monitor |
| Pipeline.SecurityBlockIsCounted | src/middleware/middleware.py:250-256 | an admitted but suspicious request reaches the client as Security's ToolError, is counted once under "ToolError:<method>", stays in the rate window, does not run the handler and is recorded as a failure |
| Pipeline.HandlerRunsIffAdmittedAndClean | src/middleware/middleware.py:250-256 | the handler runs exactly when the rate limiter admits the request and Security finds nothing suspicious |
| Pipeline.HandlerOutcomeReachesClient | src/middleware/middleware.py:250-256 | a handler result reaches the client unchanged with nothing counted; a handler failure is counted once and reaches the client rewritten by method prefix; the monitor records the outcome the client sees |
| Pipeline.Server.RegisterMiddleware | src/middleware/middleware.py:247-256 | the six stages in registration order, with the arguments `register_middleware` passes (block, transform, 120 per minute per client), all tables empty |
| Pipeline.Server.Dispatch | src/middleware/middleware.py:250-256 | the reply, the new tables, whether the handler ran and the stages entered are those of `Serve` on the old tables; the stages entered are a prefix of the reversed `registered` list |
| Pipeline.Server.RunRateLimited | src/middleware/middleware.py:96-162 | the rate limiter around error handling around Security, as `RateLimited` says; the performance table is untouched |
| Pipeline.Server.RunSecured | src/middleware/middleware.py:237-244 | Security around the handler, as `Secured` says |
| SearchModels.NewResult | src/core/search/models/base.py:18-31 | the declared field defaults of a result: position and search position 0, engine, timestamp, hash, snippet, rich-snippet type and traffic empty, organic, no rich snippet, an empty feature list |
| SearchModels.PostInitFills | src/core/search/models/base.py:33-44 | after `__post_init__` each falsy computed field holds its source (now, md5 of the URL, the description, the position), a set field is kept, the feature list is never None, and the data fields are unchanged |
| SearchModels.PostInitIdempotent | src/core/search/models/base.py:33-44 | running `__post_init__` a second time changes nothing |
| SearchModels.PostInitKeepsSetFields | src/core/search/models/base.py:33-44 | a result whose computed fields are all set is left as it is |
| SearchModels.ResultKeyNamesDistinct | src/core/search/models/base.py:55-70 | the fourteen key names are distinct |
| SearchModels.ResultToDict | src/core/search/models/base.py:53-70 | the dictionary has exactly the fourteen keys |
| SearchModels.ResultDictRoundTrip | src/core/search/models/base.py:53-70 | every field reads back from the dictionary unchanged |
| SearchModels.ResultToDictInjective | src/core/search/models/base.py:53-70 | two results with the same dictionary are the same result |
| SearchModels.SearchResult.constructor | src/core/search/models/base.py:14-44 | the stored fields are the given ones completed by `__post_init__` |
| SearchModels.SearchResult.PostInit | src/core/search/models/base.py:33-44 | the fields afterwards are `PostInitDefaults` of the fields before |
| SearchModels.SearchResult.ToDict | src/core/search/models/base.py:53-70 | the dictionary of the current fields reads back as those fields |
| SearchModels.MetadataPostInit | src/core/search/models/base.py:88-91 | a set timestamp is kept, an empty one becomes the current time, and nothing else changes |
| SearchModels.MetadataKeyNamesDistinct | src/core/search/models/base.py:95-103 | the seven key names are distinct |
| SearchModels.MetadataToDict | src/core/search/models/base.py:93-103 | the dictionary has exactly the seven keys |
| SearchModels.MetadataDictRoundTrip | src/core/search/models/base.py:93-103 | every metadata field reads back from the dictionary unchanged |
| SearchModels.NewRequest | src/core/search/models/base.py:110-116 | the declared request defaults: 10 results, no extraction, no link following, depth 1, fallback on, timeout 30 |
| SearchModels.RequestKeyNamesDistinct | src/core/search/models/base.py:120-128 | the seven key names are distinct |
| SearchModels.RequestToDict | src/core/search/models/base.py:118-128 | the dictionary has exactly the seven keys |
| SearchModels.RequestDictRoundTrip | src/core/search/models/base.py:118-128 | every request field reads back from the dictionary unchanged |
| MultiSearch.Dicts | src/tools/multi_search.py:73 | one dictionary per result, in order, each reading back as its result |
| MultiSearch.SweepVisitsInOrder | src/tools/multi_search.py:56-99 | the sweep writes entries for a prefix of the priority order, at least one; the j-th is for engine j, asked by call n + j, and holds the entry that call's outcome produces |
| MultiSearch.FallbackVisitsEveryEngine | src/tools/multi_search.py:88-99 | when failures are tolerated all three engines get an entry |
| MultiSearch.SweepStopsAtFirstFailure | src/tools/multi_search.py:88-99 | when failures are not tolerated no entry before the last is "failed", and the sweep ends early only on a "failed" entry |
| MultiSearch.SweepCountsAgree | src/tools/multi_search.py:69-96 | a "success" entry counts at least one result, any other entry none |
| MultiSearch.TotalsAgree | src/tools/multi_search.py:76-77 | no more successes than entries; the total is at least the successes and is zero exactly when nothing succeeded |
| MultiSearch.AllEnginesSummary | src/tools/multi_search.py:101-117 | three engines are reported tested; `failed_engines` is three minus the successes even when the sweep stopped early; successes and total are those of the entries |
| MultiSearch.MixedOutcomes | src/tools/multi_search.py:56-117 | Bing raising, DuckDuckGo finding two and Yahoo none: tolerant sweep writes failed/success(2)/no_results with total 2; intolerant sweep writes Bing's failure alone after one call |
| MultiSearch.PrimaryWhenBingAnswers | src/tools/multi_search.py:140-175 | when Bing finds results the answer is Bing's single "success" entry with one successful engine and Bing's count, after exactly one call |
| MultiSearch.FallbackRunsFullSweep | src/tools/multi_search.py:176-188 | when Bing raises or finds nothing the answer is the tolerant full sweep, which asks Bing again, then DuckDuckGo and Yahoo |
| MultiSearch.Orchestrator.constructor | src/tools/multi_search.py:21-27 | a new orchestrator has made no search or close call |
| MultiSearch.Orchestrator.Query | src/tools/multi_search.py:61-67 | one adapter call: its outcome is the adapters' answer to the next call number, and the call is logged |
| MultiSearch.Orchestrator.SearchAllEngines | src/tools/multi_search.py:29-117 | the report is `AllEngines` for the orchestrator's call count, and the calls made are one per entry, in order |
| MultiSearch.Orchestrator.SweepEngines | src/tools/multi_search.py:56-99 | the loop's entries are `Sweep` from the first engine, its counters are the successes and the total of those entries, and it makes one call per entry |
| MultiSearch.Orchestrator.VisitEngine | src/tools/multi_search.py:57-99 | one loop turn adds one entry and one call and keeps the counters right; when it stops, the entries are the whole sweep |
| MultiSearch.Orchestrator.SearchWithFallback | src/tools/multi_search.py:119-188 | the report is `WithFallback` and the calls made are `FallbackCalls` |
| MultiSearch.Orchestrator.CloseAllEngines | src/tools/multi_search.py:190-196 | every adapter is closed once, in order, even when a close raises; no search call is made |
| MultiSearch.OrchestratorSlot.constructor | src/tools/multi_search.py:199-200 | there is no orchestrator before the first call |
| MultiSearch.OrchestratorSlot.GetOrchestrator | src/tools/multi_search.py:203-208 | the first call creates a fresh orchestrator, every later one returns that same orchestrator |
| MultiSearch.MultiSearchOutcome | src/tools/multi_search.py:234-280 | the tool fails exactly when an exception is raised in its try block, with "Multi-engine search failed: " and the first exception's text; otherwise it answers with the search `use_fallback` selects |
| MultiSearch.NoFallbackStillVisitsEveryEngine | src/tools/multi_search.py:253-261 | with `use_fallback` off the tool still runs the failure-tolerant sweep, so all three engines get an entry |
| MultiSearch.MultiSearchTool | src/tools/multi_search.py:210-280 | the output is `MultiSearchOutput` for the shared orchestrator's call count; after `get_orchestrator` has run there is an orchestrator, an existing one is reused, and its call log grows by exactly the selected search's calls (none when the tool failed before searching) |

## Left out

- **Timing and logging.** `TimingMiddleware` and the log lines of every stage only write to the log and pass the outcome on. They appear as stages in the execution order but have no state.
- **Logging metadata.** `LoggingMiddleware` is modelled by its payload text alone (`LoggedPayload`). The method, source and type it logs are not modelled.
- **Tracebacks.** `include_traceback` only affects logging and is not modelled.
- **Float timing.** Durations are `real`. `perf_counter`'s floating point and the float aggregates of `get_metrics` are not modelled: the average, minimum and maximum times in milliseconds.
- **Success rate.** The success rate is computed over exact reals.
- PerformanceMonitoring.PerfMonitor.Metrics: the `if times:` test is kept, but in a consistent state it never skips an operation.
- **Lower-casing.** `Security.Lower` lower-cases ASCII letters only. Python's Unicode `str.lower()` is not modelled.
- **Rendered messages.** `str(context.message)` is the message text given with the request.
- **Concurrency.** Async scheduling and concurrency are not modelled. Each request runs to completion before the next, as the single-threaded host does. Interleavings at `await` points are not modelled.
- **fastmcp composition.** `fastmcp`'s `add_middleware` and its chain building are not part of this model. The order is an assumption taken from the comment at middleware.py:250, "last added runs first". `Pipeline.Serve` writes that nesting out by hand, and a failure propagates outwards as an exception. If `fastmcp` made the first-added stage outermost, the conclusions of `RateRejectionIsNotCounted`, `SecurityBlockIsCounted` and `HandlerOutcomeReachesClient` would not hold for the deployed server.
- **Adapter search.** The adapters' network search is the `Adapters` function parameter. Each adapter returns a list (possibly empty) or raises. A `None` return, which the source would also treat as no results, is not modelled.
- **`to_dict()` failures.** `to_dict()` on a returned result cannot fail in the model.
- **Entry results.** An engine entry holds its result records. `Serialised` / `Dicts` give the dictionaries the source writes, and `Dicts` shows they read back as those records.
- **Success entries.** A "success" or "no_results" entry has no "error" key; the model writes `None` there.
- **Report constants.** The constant fields of the primary answer are implied by the `Primary` constructor: "primary_engine": "bing" and "status": "primary_success".
- **Timestamps.** Every `datetime.now().isoformat()` of one call is the same `now` value. The source reads the clock separately for each entry and for the summary.
- **Tool failure points.** In the `multi_search` tool, an exception from the context's `info`/`report_progress` calls is a parameter, one per point where it can happen. `beforeOrchestrator` is raised at multi_search.py:236-239 or while building the orchestrator, so `_orchestrator` is left as it was. `beforeSearch` is raised at multi_search.py:243-244, after `get_orchestrator`. `afterSearch` is raised at multi_search.py:263-266. An exception escaping the search itself cannot occur in the model, because the orchestrator catches every adapter exception.
- MultiSearch.MultiSearchTool: an exception raised by `ctx.error` inside the except clause (multi_search.py:273-274) escapes the tool instead of becoming a "failed" answer; the model does not represent that case.
- **Tool side effects.** The tool's progress reports and log messages are not modelled.
- **Engine order.** `close_all_engines` iterates `self.engines.values()`, whose insertion order is the priority order. A close error is only logged at debug level, so `closeRaises` has no effect beyond that.
- **Domain extraction.** `BaseSearchResult.extract_domain` parses URLs with `urllib` and is not part of this model. Neither is `__repr__`.
- **Defaults.** The parameter defaults of `search_all_engines` and `search_with_fallback` are explicit arguments. These are `num_results` 10, `extract_content` and `follow_links` True, and `max_depth` 2. The tool passes its own values.
- **Performance sample cap.** The comment at middleware.py:186 says only the last 100 measurements are kept, but the code trims only on the success path (middleware.py:187-188). A failed call appends without trimming (middleware.py:196-197). The model follows the code, and `FailuresAreNotTrimmed` shows the list can grow past 100.
- **Failure count.** `failed_engines` is `len(engine_order) - successful_engines` (multi_search.py:106), which counts engines never asked and "no_results" engines as failed. The model follows the code (`AllEnginesSummary`).
