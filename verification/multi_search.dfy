/**
 * The multi-engine search tool. An orchestrator owns the Bing, DuckDuckGo
 * and Yahoo adapters and queries them one at a time in that priority order,
 * writing one status entry per engine it visits and a numeric summary. The
 * fallback search asks Bing alone first and runs the full sweep only when
 * Bing fails or finds nothing.
 */
module MultiSearch {
  import opened Wrappers
  import opened SearchModels

  datatype EngineName = Bing | DuckDuckGo | Yahoo
  {
    /** The engine's key in `engines` and in the `results` dictionary. */
    function Name(): string {
      match this
      case Bing => "bing"
      case DuckDuckGo => "duckduckgo"
      case Yahoo => "yahoo"
    }
  }

  /** `engine_order`: the priority order, which is also the order of `engines`. */
  const EngineOrder: seq<EngineName> := [Bing, DuckDuckGo, Yahoo]

  /** The keyword arguments every adapter's `search` receives. */
  datatype SearchParams = SearchParams(query: string, numResults: int, extractContent: bool, followLinks: bool, maxDepth: int)

  /** What an adapter's `search` does: raises an exception with text `message`, or returns a list of results. */
  datatype Outcome = Raises(message: string) | Returns(results: seq<ResultRecord>)

  /**
   * The adapters, whose answers come from the network: the outcome of the
   * orchestrator's `n`-th search call, counted from 0 over its lifetime, when
   * it asks `engine` with the given parameters.
   */
  type Adapters = (EngineName, SearchParams, nat) -> Outcome

  /** One `engine.search` call made by the orchestrator. */
  datatype Call = Call(engine: EngineName, params: SearchParams)

  /** The "status" of an engine's entry: "success", "no_results" or "failed". */
  datatype Status = Success | NoResults | Failed

  /**
   * One engine's entry in `results`: status, count, the results returned,
   * the error text of a failure and the timestamp. The entry carries the
   * results as their `to_dict()` dictionaries, which `Serialised` gives.
   */
  datatype EngineEntry = EngineEntry(status: Status, count: nat, results: seq<ResultRecord>,
                                     error: Option<string>, timestamp: string)

  /** An engine visited by the sweep, with the entry written for it. */
  datatype Visit = Visit(engine: EngineName, entry: EngineEntry)

  /** `[r.to_dict() for r in results]`. */
  function Dicts(rs: seq<ResultRecord>): (ds: seq<map<ResultKey, Value>>)
    ensures |ds| == |rs| && forall j :: 0 <= j < |rs| ==> ResultFromDict(ds[j]) == Some(rs[j])
  {
    if rs == [] then []
    else
      ResultDictRoundTrip(rs[0]);
      [ResultToDict(rs[0])] + Dicts(rs[1..])
  }

  /** The entry's results as written: each dictionary reads back as the result it came from. */
  function Serialised(entry: EngineEntry): seq<map<ResultKey, Value>> {
    Dicts(entry.results)
  }

  /** The entry written for one adapter outcome; `now` is the ISO time read for it. */
  function EntryFor(outcome: Outcome, now: string): EngineEntry {
    match outcome
    case Raises(message) => EngineEntry(Failed, 0, [], Some(message), now)
    case Returns(rs) =>
      if |rs| > 0 then EngineEntry(Success, |rs|, rs, None, now)
      else EngineEntry(NoResults, 0, [], None, now)
  }

  /**
   * The entries `search_all_engines` returns when it has already written
   * `written` and goes on from the `from`-th engine of `EngineOrder`, its
   * first call having been the orchestrator's `n`-th (so the `i`-th engine
   * is asked by call `n + i`): one entry per engine, until a raising engine
   * ends the sweep when failures are not tolerated. A whole sweep is
   * `Sweep(.., [], 0)`.
   */
  function Sweep(params: SearchParams, fallbackOnFailure: bool, adapters: Adapters, n: nat, now: string,
                 written: seq<Visit>, from: nat): seq<Visit>
    decreases |EngineOrder| - from
  {
    if from >= |EngineOrder| then written
    else
      var outcome := adapters(EngineOrder[from], params, n + from);
      var visit := Visit(EngineOrder[from], EntryFor(outcome, now));
      if outcome.Raises? && !fallbackOnFailure then written + [visit]
      else Sweep(params, fallbackOnFailure, adapters, n, now, written + [visit], from + 1)
  }

  /** The search calls behind a list of visits, one per visited engine. */
  function CallsOf(visits: seq<Visit>, params: SearchParams): seq<Call> {
    if visits == [] then []
    else CallsOf(visits[..|visits| - 1], params) + [Call(visits[|visits| - 1].engine, params)]
  }

  /** The `j`-th call behind a list of visits asks the `j`-th visited engine. */
  lemma {:induction false} CallsOfAt(visits: seq<Visit>, params: SearchParams)
    ensures var calls := CallsOf(visits, params);
            |calls| == |visits| && forall j :: 0 <= j < |visits| ==> calls[j] == Call(visits[j].engine, params)
  {
    if visits != [] {
      CallsOfAt(visits[..|visits| - 1], params);
    }
  }

  /** The number of "success" entries. */
  function SuccessCount(visits: seq<Visit>): nat {
    if visits == [] then 0
    else SuccessCount(visits[..|visits| - 1]) + (if visits[|visits| - 1].entry.status == Success then 1 else 0)
  }

  /** The sum of the entries' counts. */
  function ResultTotal(visits: seq<Visit>): nat {
    if visits == [] then 0
    else ResultTotal(visits[..|visits| - 1]) + visits[|visits| - 1].entry.count
  }

  /** The summary of `search_all_engines`. */
  datatype Summary = Summary(query: string, enginesTested: nat, successfulEngines: nat, failedEngines: int,
                             totalResults: nat, extractContent: bool, followLinks: bool, maxDepth: int,
                             timestamp: string)

  /** The summary of a fallback search that Bing answered: "primary_engine" is "bing". */
  datatype PrimarySummary = PrimarySummary(query: string, successfulEngines: nat, totalResults: nat,
                                           extractContent: bool, followLinks: bool, maxDepth: int,
                                           timestamp: string)

  /**
   * What a search returns: the summary and entries of a full sweep, or
   * Bing's single entry with status "primary_success".
   */
  datatype Report =
    | Combined(summary: Summary, results: seq<Visit>)
    | Primary(bing: EngineEntry, primarySummary: PrimarySummary)

  /** `search_all_engines`, its first call being the orchestrator's `n`-th. */
  function AllEngines(params: SearchParams, fallbackOnFailure: bool, adapters: Adapters, n: nat, now: string): Report {
    var visits := Sweep(params, fallbackOnFailure, adapters, n, now, [], 0);
    var ok := SuccessCount(visits);
    Combined(Summary(params.query, |EngineOrder|, ok, |EngineOrder| - ok, ResultTotal(visits),
                     params.extractContent, params.followLinks, params.maxDepth, now),
             visits)
  }

  /** Bing found something: the fallback search stops there. */
  predicate BingAnswers(params: SearchParams, adapters: Adapters, n: nat) {
    var first := adapters(Bing, params, n);
    first.Returns? && |first.results| > 0
  }

  /** `search_with_fallback`, its first call being the orchestrator's `n`-th. */
  function WithFallback(params: SearchParams, adapters: Adapters, n: nat, now: string): Report {
    var first := adapters(Bing, params, n);
    if BingAnswers(params, adapters, n) then
      Primary(EntryFor(first, now),
              PrimarySummary(params.query, 1, |first.results|, params.extractContent, params.followLinks,
                             params.maxDepth, now))
    else AllEngines(params, true, adapters, n + 1, now)
  }

  /** The search calls `search_with_fallback` makes: Bing, then the full sweep unless Bing answered. */
  function FallbackCalls(params: SearchParams, adapters: Adapters, n: nat, now: string): seq<Call> {
    [Call(Bing, params)] +
    if BingAnswers(params, adapters, n) then []
    else CallsOf(AllEngines(params, true, adapters, n + 1, now).results, params)
  }

  /**
   * Going on from engine `from` with one entry written per engine before
   * it, the sweep keeps those entries and visits the following engines in
   * priority order, at least one of them if any remain; its `j`-th entry
   * is for engine `j`, asked by call `n + j`, and is what that call's
   * outcome produces.
   */
  lemma {:induction false} SweepVisitsInOrder(params: SearchParams, fallbackOnFailure: bool, adapters: Adapters,
                                              n: nat, now: string, written: seq<Visit>, from: nat)
    requires |written| == from <= |EngineOrder|
    ensures var visits := Sweep(params, fallbackOnFailure, adapters, n, now, written, from);
            && from <= |visits| <= |EngineOrder|
            && (from < |EngineOrder| ==> |visits| > from)
            && visits[..from] == written
            && forall j :: from <= j < |visits| ==>
                 visits[j] == Visit(EngineOrder[j], EntryFor(adapters(EngineOrder[j], params, n + j), now))
    decreases |EngineOrder| - from
  {
    if from < |EngineOrder| {
      var outcome := adapters(EngineOrder[from], params, n + from);
      var next := written + [Visit(EngineOrder[from], EntryFor(outcome, now))];
      if !(outcome.Raises? && !fallbackOnFailure) {
        SweepVisitsInOrder(params, fallbackOnFailure, adapters, n, now, next, from + 1);
        var visits := Sweep(params, fallbackOnFailure, adapters, n, now, written, from);
        assert visits[..from + 1] == next;
        assert visits[..from] == next[..from];
      }
    }
  }

  /** When failures are tolerated, every engine is visited, raising or not. */
  lemma {:induction false} FallbackVisitsEveryEngine(params: SearchParams, adapters: Adapters, n: nat, now: string,
                                                     written: seq<Visit>, from: nat)
    requires |written| == from <= |EngineOrder|
    ensures |Sweep(params, true, adapters, n, now, written, from)| == |EngineOrder|
    decreases |EngineOrder| - from
  {
    if from < |EngineOrder| {
      var next := written + [Visit(EngineOrder[from], EntryFor(adapters(EngineOrder[from], params, n + from), now))];
      FallbackVisitsEveryEngine(params, adapters, n, now, next, from + 1);
    }
  }

  /**
   * When failures are not tolerated, the sweep stops at the first engine
   * that raises: no entry it adds before its last is "failed", and it ends
   * before the last engine only on a "failed" entry. An empty result never
   * stops it.
   */
  lemma {:induction false} SweepStopsAtFirstFailure(params: SearchParams, adapters: Adapters, n: nat, now: string,
                                                    written: seq<Visit>, from: nat)
    requires |written| == from <= |EngineOrder|
    ensures var visits := Sweep(params, false, adapters, n, now, written, from);
            && (forall j :: from <= j < |visits| - 1 ==> visits[j].entry.status != Failed)
            && (|visits| < |EngineOrder| ==> |visits| > from && visits[|visits| - 1].entry.status == Failed)
    decreases |EngineOrder| - from
  {
    if from < |EngineOrder| {
      var outcome := adapters(EngineOrder[from], params, n + from);
      var next := written + [Visit(EngineOrder[from], EntryFor(outcome, now))];
      if !outcome.Raises? {
        SweepStopsAtFirstFailure(params, adapters, n, now, next, from + 1);
        SweepVisitsInOrder(params, false, adapters, n, now, next, from + 1);
        var visits := Sweep(params, false, adapters, n, now, written, from);
        assert visits[..from + 1] == next;
        assert visits[from] == next[from];
      }
    }
  }

  /** Each "success" entry holds at least one result and every other entry counts none. */
  ghost predicate CountsAgree(visits: seq<Visit>) {
    forall j :: 0 <= j < |visits| ==>
      (visits[j].entry.status == Success ==> visits[j].entry.count >= 1) &&
      (visits[j].entry.status != Success ==> visits[j].entry.count == 0)
  }

  /** The entries of a sweep count their results as described by `CountsAgree`. */
  lemma SweepCountsAgree(params: SearchParams, fallbackOnFailure: bool, adapters: Adapters, n: nat, now: string)
    ensures CountsAgree(Sweep(params, fallbackOnFailure, adapters, n, now, [], 0))
  {
    SweepVisitsInOrder(params, fallbackOnFailure, adapters, n, now, [], 0);
  }

  /**
   * With entries that count as `CountsAgree` says, no more engines succeed
   * than were visited, the total is at least the number of successes, and
   * it is zero exactly when no engine succeeded.
   */
  lemma {:induction false} TotalsAgree(visits: seq<Visit>)
    requires CountsAgree(visits)
    ensures SuccessCount(visits) <= |visits|
    ensures ResultTotal(visits) >= SuccessCount(visits)
    ensures ResultTotal(visits) == 0 <==> SuccessCount(visits) == 0
  {
    if visits != [] {
      var init := visits[..|visits| - 1];
      assert CountsAgree(init) by {
        forall j | 0 <= j < |init| ensures init[j] == visits[j] { }
      }
      TotalsAgree(init);
    }
  }

  /**
   * The summary of `search_all_engines`: three engines are always reported
   * tested and `failed_engines` is three minus the successes, whatever
   * happened to the others; the successes and the total are those of the
   * entries, and the total is zero exactly when nothing succeeded.
   */
  lemma AllEnginesSummary(params: SearchParams, fallbackOnFailure: bool, adapters: Adapters, n: nat, now: string)
    ensures var r := AllEngines(params, fallbackOnFailure, adapters, n, now);
            && r.Combined?
            && r.summary.enginesTested == 3
            && r.summary.successfulEngines == SuccessCount(r.results) <= |r.results| <= 3
            && r.summary.failedEngines == 3 - r.summary.successfulEngines >= 0
            && r.summary.totalResults == ResultTotal(r.results) >= r.summary.successfulEngines
            && (r.summary.totalResults == 0 <==> r.summary.successfulEngines == 0)
  {
    var visits := Sweep(params, fallbackOnFailure, adapters, n, now, [], 0);
    SweepVisitsInOrder(params, fallbackOnFailure, adapters, n, now, [], 0);
    SweepCountsAgree(params, fallbackOnFailure, adapters, n, now);
    TotalsAgree(visits);
  }

  /**
   * Bing raises, DuckDuckGo finds two results and Yahoo none. Tolerating
   * failures, the sweep writes "failed", "success" with count 2 and
   * "no_results", for a total of 2; otherwise it writes Bing's "failed"
   * entry alone and asks no other engine.
   */
  lemma MixedOutcomes(params: SearchParams, adapters: Adapters, n: nat, now: string, message: string,
                      two: seq<ResultRecord>)
    requires |two| == 2
    requires adapters(Bing, params, n) == Raises(message)
    requires adapters(DuckDuckGo, params, n + 1) == Returns(two)
    requires adapters(Yahoo, params, n + 2) == Returns([])
    ensures var r := AllEngines(params, true, adapters, n, now);
            && |r.results| == 3
            && r.results[0].entry == EngineEntry(Failed, 0, [], Some(message), now)
            && r.results[1].entry == EngineEntry(Success, 2, two, None, now)
            && r.results[2].entry == EngineEntry(NoResults, 0, [], None, now)
            && r.summary.successfulEngines == 1 && r.summary.failedEngines == 2 && r.summary.totalResults == 2
    ensures var r := AllEngines(params, false, adapters, n, now);
            && r.results == [Visit(Bing, EngineEntry(Failed, 0, [], Some(message), now))]
            && CallsOf(r.results, params) == [Call(Bing, params)]
  {
    var visits := Sweep(params, true, adapters, n, now, [], 0);
    FallbackVisitsEveryEngine(params, adapters, n, now, [], 0);
    SweepVisitsInOrder(params, true, adapters, n, now, [], 0);
    var one, firstTwo := visits[..1], visits[..2];
    assert visits[..|visits| - 1] == firstTwo;
    assert firstTwo[..|firstTwo| - 1] == one;
    assert one[..|one| - 1] == [];
    assert SuccessCount(one) == 0 && ResultTotal(one) == 0;
    assert SuccessCount(firstTwo) == 1 && ResultTotal(firstTwo) == 2;
    var stopped := Sweep(params, false, adapters, n, now, [], 0);
    assert stopped == [] + [Visit(Bing, EntryFor(Raises(message), now))];
    assert CallsOf(stopped, params) == CallsOf([], params) + [Call(Bing, params)];
  }

  /**
   * Bing found results: the fallback search reports "primary_success" with
   * Bing's single "success" entry, one successful engine and Bing's count,
   * and asks no other engine.
   */
  lemma PrimaryWhenBingAnswers(params: SearchParams, adapters: Adapters, n: nat, now: string)
    requires BingAnswers(params, adapters, n)
    ensures var r := WithFallback(params, adapters, n, now);
            && r.Primary?
            && r.bing.status == Success && r.bing.count == |adapters(Bing, params, n).results|
            && r.primarySummary.successfulEngines == 1
            && r.primarySummary.totalResults == r.bing.count
            && FallbackCalls(params, adapters, n, now) == [Call(Bing, params)]
  {
  }

  /**
   * Bing raised or found nothing: the fallback search is the full sweep with
   * failures tolerated, which asks Bing a second time and then every other
   * engine in order.
   */
  lemma FallbackRunsFullSweep(params: SearchParams, adapters: Adapters, n: nat, now: string)
    requires !BingAnswers(params, adapters, n)
    ensures WithFallback(params, adapters, n, now) == AllEngines(params, true, adapters, n + 1, now)
    ensures FallbackCalls(params, adapters, n, now) ==
            [Call(Bing, params), Call(Bing, params), Call(DuckDuckGo, params), Call(Yahoo, params)]
  {
    var visits := Sweep(params, true, adapters, n + 1, now, [], 0);
    FallbackVisitsEveryEngine(params, adapters, n + 1, now, [], 0);
    SweepVisitsInOrder(params, true, adapters, n + 1, now, [], 0);
    CallsOfAt(visits, params);
    assert CallsOf(visits, params) == [Call(Bing, params), Call(DuckDuckGo, params), Call(Yahoo, params)];
  }

  /**
   * The state of `search_all_engines` after writing `visits`: one call per
   * entry, the rest of the sweep from there is `sweep`, and the counters
   * agree with the entries.
   */
  ghost predicate SweptSoFar(params: SearchParams, fallbackOnFailure: bool, adapters: Adapters, n: nat, now: string,
                             start: seq<Call>, calls: seq<Call>, visits: seq<Visit>, successful: nat, total: nat,
                             sweep: seq<Visit>)
  {
    && |calls| == n + |visits| && calls == start + CallsOf(visits, params)
    && Sweep(params, fallbackOnFailure, adapters, n, now, visits, |visits|) == sweep
    && successful == SuccessCount(visits) && total == ResultTotal(visits)
  }

  /** Appending a visit adds its call, its success and its count. */
  lemma AppendVisit(prior: seq<Call>, visits: seq<Visit>, v: Visit, params: SearchParams)
    ensures prior + CallsOf(visits + [v], params) == (prior + CallsOf(visits, params)) + [Call(v.engine, params)]
    ensures SuccessCount(visits + [v]) == SuccessCount(visits) + (if v.entry.status == Success then 1 else 0)
    ensures ResultTotal(visits + [v]) == ResultTotal(visits) + v.entry.count
  {
    assert (visits + [v])[..|visits|] == visits;
  }

  /** The search orchestrator with its three adapters. */
  class Orchestrator {
    /** Every `search` call made so far, in order. */
    var calls: seq<Call>
    /** Every `close` call made so far, in order. */
    var closes: seq<EngineName>

    /** A fresh orchestrator: its adapters have not been called. */
    constructor ()
      ensures calls == [] && closes == []
    {
      calls, closes := [], [];
    }

    /** One adapter `search` call, answered as the adapters answer the next call number. */
    method Query(engine: EngineName, params: SearchParams, adapters: Adapters) returns (outcome: Outcome)
      modifies this
      ensures outcome == adapters(engine, params, |old(calls)|)
      ensures calls == old(calls) + [Call(engine, params)] && closes == old(closes)
    {
      outcome := adapters(engine, params, |calls|);
      calls := calls + [Call(engine, params)];
    }

    /**
     * `search_all_engines`: sweeps the engines, then reports three engines
     * tested, the successes, the failures as the rest, and the total.
     */
    method SearchAllEngines(params: SearchParams, fallbackOnFailure: bool, adapters: Adapters, now: string)
      returns (report: Report)
      modifies this
      ensures report == AllEngines(params, fallbackOnFailure, adapters, |old(calls)|, now)
      ensures calls == old(calls) + CallsOf(report.results, params) && closes == old(closes)
    {
      var visits, successful, total := SweepEngines(params, fallbackOnFailure, adapters, now);
      report := Combined(Summary(params.query, |EngineOrder|, successful, |EngineOrder| - successful, total,
                                 params.extractContent, params.followLinks, params.maxDepth, now),
                         visits);
    }

    /**
     * The loop of `search_all_engines`: asks each engine in priority order,
     * writes its entry, counts the successes and their results, and stops
     * after the first raising engine unless failures are tolerated.
     */
    method SweepEngines(params: SearchParams, fallbackOnFailure: bool, adapters: Adapters, now: string)
      returns (visits: seq<Visit>, successful: nat, total: nat)
      modifies this
      ensures visits == Sweep(params, fallbackOnFailure, adapters, |old(calls)|, now, [], 0)
      ensures successful == SuccessCount(visits) && total == ResultTotal(visits)
      ensures calls == old(calls) + CallsOf(visits, params) && closes == old(closes)
    {
      ghost var start, n := calls, |calls|;
      ghost var sweep := Sweep(params, fallbackOnFailure, adapters, n, now, [], 0);
      visits, successful, total := [], 0, 0;
      var i := 0;
      while i < |EngineOrder|
        invariant i == |visits| <= |EngineOrder| && closes == old(closes)
        invariant SweptSoFar(params, fallbackOnFailure, adapters, n, now, start, calls, visits, successful, total, sweep)
      {
        var stop;
        visits, successful, total, stop :=
          VisitEngine(params, fallbackOnFailure, adapters, now, visits, successful, total, n, start, sweep);
        if stop {
          break;
        }
        i := i + 1;
      }
    }

    /**
     * One turn of the sweep: asks the next engine, writes its entry, counts
     * it, and says whether the sweep stops there (the engine raised and
     * failures are not tolerated).
     */
    method VisitEngine(params: SearchParams, fallbackOnFailure: bool, adapters: Adapters, now: string,
                       visits: seq<Visit>, successful: nat, total: nat,
                       ghost n: nat, ghost start: seq<Call>, ghost sweep: seq<Visit>)
      returns (visits': seq<Visit>, successful': nat, total': nat, stop: bool)
      requires |visits| < |EngineOrder|
      requires SweptSoFar(params, fallbackOnFailure, adapters, n, now, start, calls, visits, successful, total, sweep)
      modifies this
      ensures closes == old(closes) && |visits'| == |visits| + 1
      ensures !stop ==> SweptSoFar(params, fallbackOnFailure, adapters, n, now, start, calls, visits', successful', total', sweep)
      ensures stop ==> && visits' == sweep
                       && calls == start + CallsOf(visits', params)
                       && successful' == SuccessCount(visits') && total' == ResultTotal(visits')
    {
      var engine := EngineOrder[|visits|];
      var outcome := Query(engine, params, adapters);
      var visit := Visit(engine, EntryFor(outcome, now));
      stop := outcome.Raises? && !fallbackOnFailure;
      successful' := successful + if visit.entry.status == Success then 1 else 0;
      total' := total + visit.entry.count;
      AppendVisit(start, visits, visit, params);
      visits' := visits + [visit];
    }

    /**
     * `search_with_fallback`: Bing alone first; its results are returned as
     * the primary answer when it found any, otherwise the full sweep runs
     * with failures tolerated.
     */
    method SearchWithFallback(params: SearchParams, adapters: Adapters, now: string) returns (report: Report)
      modifies this
      ensures report == WithFallback(params, adapters, |old(calls)|, now)
      ensures calls == old(calls) + FallbackCalls(params, adapters, |old(calls)|, now) && closes == old(closes)
    {
      var first := Query(Bing, params, adapters);
      if first.Returns? && |first.results| > 0 {
        var rs := first.results;
        report := Primary(EngineEntry(Success, |rs|, rs, None, now),
                          PrimarySummary(params.query, 1, |rs|, params.extractContent, params.followLinks,
                                         params.maxDepth, now));
        return;
      }
      report := SearchAllEngines(params, true, adapters, now);
    }

    /**
     * `close_all_engines`: closes every adapter in turn. `closeRaises` says
     * which adapters' `close` raise; such an error is logged and the next
     * adapter is still closed, and nothing is raised to the caller.
     */
    method CloseAllEngines(closeRaises: EngineName -> bool)
      modifies this
      ensures closes == old(closes) + EngineOrder && calls == old(calls)
    {
      var i := 0;
      while i < |EngineOrder|
        invariant 0 <= i <= |EngineOrder|
        invariant closes == old(closes) + EngineOrder[..i] && calls == old(calls)
      {
        closes := closes + [EngineOrder[i]];
        if closeRaises(EngineOrder[i]) {
          // The error is only logged at debug level.
        }
        assert EngineOrder[..i + 1] == EngineOrder[..i] + [EngineOrder[i]];
        i := i + 1;
      }
    }
  }

  /** The search calls an orchestrator has made, none when it does not exist yet. */
  function CallsSoFar(o: Orchestrator?): seq<Call>
    reads o
  {
    if o == null then [] else o.calls
  }

  /** The module-level `_orchestrator`. */
  class OrchestratorSlot {
    var orchestrator: Orchestrator?

    /** Before the first tool call there is no orchestrator. */
    constructor ()
      ensures orchestrator == null
    {
      orchestrator := null;
    }

    /** `get_orchestrator`: creates the orchestrator on the first call and returns that same one ever after. */
    method GetOrchestrator() returns (o: Orchestrator)
      modifies this
      ensures orchestrator == o
      ensures old(orchestrator) != null ==> o == old(orchestrator)
      ensures old(orchestrator) == null ==> fresh(o) && o.calls == [] && o.closes == []
    {
      if orchestrator == null {
        orchestrator := new Orchestrator();
      }
      o := orchestrator;
    }
  }

  /** What the `multi_search` tool returns: the search's report, or a "failed" status with an error message. */
  datatype ToolOutput = Answer(report: Report) | SearchFailed(error: string, timestamp: string)

  /** The message of a failed tool call. */
  function FailureMessage(e: string): string {
    "Multi-engine search failed: " + e
  }

  /** The search `use_fallback` selects; without fallback the sweep runs with its default, which tolerates failures. */
  function Selected(params: SearchParams, useFallback: bool, adapters: Adapters, n: nat, now: string): Report {
    if useFallback then WithFallback(params, adapters, n, now) else AllEngines(params, true, adapters, n, now)
  }

  /** The search calls of the search `use_fallback` selects. */
  function SelectedCalls(params: SearchParams, useFallback: bool, adapters: Adapters, n: nat, now: string): seq<Call> {
    if useFallback then FallbackCalls(params, adapters, n, now)
    else CallsOf(AllEngines(params, true, adapters, n, now).results, params)
  }

  /**
   * `multi_search`, for an orchestrator that has made `n` calls. The three
   * options are the text of an exception raised at each point where the
   * tool can fail outside the search: `beforeOrchestrator` by the first
   * progress reports or while building the orchestrator, `beforeSearch` by
   * the progress report once the orchestrator exists, and `afterSearch` by
   * the reports after the search.
   */
  function MultiSearchOutput(params: SearchParams, useFallback: bool, adapters: Adapters, n: nat, now: string,
                             beforeOrchestrator: Option<string>, beforeSearch: Option<string>,
                             afterSearch: Option<string>): ToolOutput
  {
    if beforeOrchestrator.Some? then SearchFailed(FailureMessage(beforeOrchestrator.value), now)
    else if beforeSearch.Some? then SearchFailed(FailureMessage(beforeSearch.value), now)
    else if afterSearch.Some? then SearchFailed(FailureMessage(afterSearch.value), now)
    else Answer(Selected(params, useFallback, adapters, n, now))
  }

  /**
   * An exception inside the tool's try block becomes a "failed" answer whose
   * error is "Multi-engine search failed: " followed by the text of the first
   * exception raised; with none, the answer is the report of the search
   * `use_fallback` selects.
   */
  lemma MultiSearchOutcome(params: SearchParams, useFallback: bool, adapters: Adapters, n: nat, now: string,
                           beforeOrchestrator: Option<string>, beforeSearch: Option<string>, afterSearch: Option<string>)
    ensures var out := MultiSearchOutput(params, useFallback, adapters, n, now, beforeOrchestrator, beforeSearch, afterSearch);
            && (beforeOrchestrator.Some? || beforeSearch.Some? || afterSearch.Some? <==> out.SearchFailed?)
            && (beforeOrchestrator.Some? ==> out.error == "Multi-engine search failed: " + beforeOrchestrator.value)
            && (beforeOrchestrator.None? && beforeSearch.Some? ==>
                  out.error == "Multi-engine search failed: " + beforeSearch.value)
            && (beforeOrchestrator.None? && beforeSearch.None? && afterSearch.Some? ==>
                  out.error == "Multi-engine search failed: " + afterSearch.value)
            && (out.Answer? && useFallback ==> out.report == WithFallback(params, adapters, n, now))
            && (out.Answer? && !useFallback ==> out.report == AllEngines(params, true, adapters, n, now))
  {
  }

  /**
   * Turning `use_fallback` off does not make the tool stop at a failing
   * engine: the sweep it runs still visits all three engines.
   */
  lemma NoFallbackStillVisitsEveryEngine(params: SearchParams, adapters: Adapters, n: nat, now: string)
    ensures var out := MultiSearchOutput(params, false, adapters, n, now, None, None, None);
            out.Answer? && out.report.Combined? && |out.report.results| == 3
  {
    FallbackVisitsEveryEngine(params, adapters, n, now, [], 0);
  }

  /**
   * The `multi_search` tool: reports progress (which may raise), gets the
   * shared orchestrator, runs the selected search and wraps any exception.
   * Once the orchestrator exists it is kept, and it has made exactly the
   * calls of the search, or none when the tool failed before searching.
   */
  method MultiSearchTool(slot: OrchestratorSlot, params: SearchParams, useFallback: bool, adapters: Adapters, now: string,
                         beforeOrchestrator: Option<string>, beforeSearch: Option<string>, afterSearch: Option<string>)
    returns (out: ToolOutput)
    modifies slot, slot.orchestrator
    ensures out == MultiSearchOutput(params, useFallback, adapters, |old(CallsSoFar(slot.orchestrator))|, now,
                                     beforeOrchestrator, beforeSearch, afterSearch)
    ensures beforeOrchestrator.Some? ==>
              slot.orchestrator == old(slot.orchestrator) && CallsSoFar(slot.orchestrator) == old(CallsSoFar(slot.orchestrator))
    ensures beforeOrchestrator.None? ==>
              && slot.orchestrator != null
              && (old(slot.orchestrator) != null ==> slot.orchestrator == old(slot.orchestrator))
              && slot.orchestrator.calls == old(CallsSoFar(slot.orchestrator)) +
                   if beforeSearch.Some? then []
                   else SelectedCalls(params, useFallback, adapters, |old(CallsSoFar(slot.orchestrator))|, now)
  {
    if beforeOrchestrator.Some? {
      out := SearchFailed(FailureMessage(beforeOrchestrator.value), now);
      return;
    }
    var orchestrator := slot.GetOrchestrator();
    if beforeSearch.Some? {
      out := SearchFailed(FailureMessage(beforeSearch.value), now);
      return;
    }
    var report;
    if useFallback {
      report := orchestrator.SearchWithFallback(params, adapters, now);
    } else {
      report := orchestrator.SearchAllEngines(params, true, adapters, now);
    }
    if afterSearch.Some? {
      out := SearchFailed(FailureMessage(afterSearch.value), now);
    } else {
      out := Answer(report);
    }
  }
}
