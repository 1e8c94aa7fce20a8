/**
 * PerformanceMonitoringMiddleware: per-operation duration samples, call
 * counts and failure counts. The operation key is `context.method`.
 */
module PerformanceMonitoring {
  import opened Wrappers
  import opened Mcp

  type Operation = Option<string>

  /** How many recent samples the success path keeps. */
  const SampleCapacity := 100

  /** `operation_times`, `operation_counts` and `error_counts`. */
  datatype PerfState = PerfState(times: map<Operation, seq<real>>, counts: map<Operation, nat>, errors: map<Operation, nat>)

  /** `operation_times[op]` as the defaultdict reads it. */
  function Samples(times: map<Operation, seq<real>>, op: Operation): seq<real> {
    if op in times then times[op] else []
  }

  /** A counter as the defaultdict reads it. */
  function Tally(m: map<Operation, nat>, op: Operation): nat {
    if op in m then m[op] else 0
  }

  /** `times[-100:]` when there are more than 100 samples. */
  function KeepRecent(s: seq<real>): seq<real> {
    if |s| > SampleCapacity then s[|s| - SampleCapacity..] else s
  }

  /** The counters agree: every counted operation has samples, and never more failures than calls. */
  ghost predicate Consistent(st: PerfState) {
    && st.times.Keys == st.counts.Keys
    && st.errors.Keys <= st.counts.Keys
    && forall op | op in st.counts :: ConsistentOp(st, op)
  }

  /** A counted operation has between one sample and one per call, and no more failures than calls. */
  ghost predicate ConsistentOp(st: PerfState, op: Operation)
    requires op in st.times && op in st.counts
  {
    1 <= |st.times[op]| <= st.counts[op] && Tally(st.errors, op) <= st.counts[op]
  }

  /**
   * What one call through the monitor records: the duration appended to
   * the operation's samples, cut back to the last 100 on success only; the
   * call counted; on failure also the error counted.
   */
  function Record(st: PerfState, op: Operation, duration: real, failed: bool): PerfState {
    PerfState(
      st.times[op := Stored(Samples(st.times, op), duration, failed)],
      st.counts[op := Tally(st.counts, op) + 1],
      if failed then st.errors[op := Tally(st.errors, op) + 1] else st.errors)
  }

  /** The samples kept after appending one: all of them after a failure, the last 100 after a success. */
  function Stored(before: seq<real>, duration: real, failed: bool): seq<real> {
    if failed then before + [duration] else KeepRecent(before + [duration])
  }

  /**
   * Both outcomes count the call, only a failure counts an error, and the
   * records of every other operation are untouched.
   */
  lemma RecordCounts(st: PerfState, op: Operation, duration: real, failed: bool)
    ensures var st' := Record(st, op, duration, failed);
            && Tally(st'.counts, op) == Tally(st.counts, op) + 1
            && Tally(st'.errors, op) == Tally(st.errors, op) + (if failed then 1 else 0)
            && forall other | other != op ::
                 Samples(st'.times, other) == Samples(st.times, other) &&
                 Tally(st'.counts, other) == Tally(st.counts, other) &&
                 Tally(st'.errors, other) == Tally(st.errors, other)
  {
    var st' := Record(st, op, duration, failed);
    forall other | other != op
      ensures Samples(st'.times, other) == Samples(st.times, other)
      ensures Tally(st'.counts, other) == Tally(st.counts, other)
      ensures Tally(st'.errors, other) == Tally(st.errors, other)
    {
      UntouchedSamples(st.times, op, Stored(Samples(st.times, op), duration, failed), other);
      UntouchedTally(st.counts, op, Tally(st.counts, op) + 1, other);
      if failed {
        UntouchedTally(st.errors, op, Tally(st.errors, op) + 1, other);
      }
    }
  }

  /** Updating one operation's samples leaves another's alone. */
  lemma UntouchedSamples(times: map<Operation, seq<real>>, op: Operation, v: seq<real>, other: Operation)
    requires other != op
    ensures Samples(times[op := v], other) == Samples(times, other)
  {
  }

  /** Updating one operation's counter leaves another's alone. */
  lemma UntouchedTally(m: map<Operation, nat>, op: Operation, v: nat, other: Operation)
    requires other != op
    ensures Tally(m[op := v], other) == Tally(m, other)
  {
  }

  /**
   * The samples after a call end with its duration. A success leaves at
   * most the last 100; a failure appends without cutting.
   */
  lemma RecordSamples(st: PerfState, op: Operation, duration: real, failed: bool)
    ensures var before := Samples(st.times, op);
            var after := Samples(Record(st, op, duration, failed).times, op);
            && |after| >= 1 && after[|after| - 1] == duration
            && (failed ==> after == before + [duration])
            && (!failed ==> |after| == (if |before| + 1 > SampleCapacity then SampleCapacity else |before| + 1))
            && (!failed ==> after == (before + [duration])[|before| + 1 - |after|..])
  {
    var appended := Samples(st.times, op) + [duration];
    var stored := Stored(Samples(st.times, op), duration, failed);
    var times' := Record(st, op, duration, failed).times;
    assert times' == st.times[op := stored];
    assert Samples(times', op) == stored;
    assert appended[|appended| - 1] == duration;
    if !failed {
      assert stored[|stored| - 1] == appended[|appended| - 1];
    }
  }

  /** Recording a call keeps the counters consistent. */
  lemma RecordKeepsConsistent(st: PerfState, op: Operation, duration: real, failed: bool)
    requires Consistent(st)
    ensures Consistent(Record(st, op, duration, failed))
  {
    var st' := Record(st, op, duration, failed);
    forall o | o in st'.counts
      ensures ConsistentOp(st', o)
    {
      if o == op {
        RecordedOpConsistent(st, op, duration, failed);
      } else {
        OtherOpConsistent(st, op, duration, failed, o);
      }
    }
  }

  /** After recording a call, the recorded operation's own records agree. */
  lemma RecordedOpConsistent(st: PerfState, op: Operation, duration: real, failed: bool)
    requires Consistent(st)
    ensures op in Record(st, op, duration, failed).times && op in Record(st, op, duration, failed).counts
    ensures ConsistentOp(Record(st, op, duration, failed), op)
  {
    ConsistentAt(st, op);
    var before := Samples(st.times, op);
    StoredBounds(before, duration, failed);
    var st' := Record(st, op, duration, failed);
    assert st'.times[op] == Stored(before, duration, failed);
    assert st'.counts[op] == Tally(st.counts, op) + 1;
    assert Tally(st'.errors, op) <= Tally(st.errors, op) + 1;
  }

  /** After recording a call, every other counted operation's records still agree. */
  lemma OtherOpConsistent(st: PerfState, op: Operation, duration: real, failed: bool, o: Operation)
    requires Consistent(st) && o != op && o in st.counts
    ensures o in Record(st, op, duration, failed).times && o in Record(st, op, duration, failed).counts
    ensures ConsistentOp(Record(st, op, duration, failed), o)
  {
    assert ConsistentOp(st, o);
  }

  /** What consistency says about one operation, present or not. */
  lemma ConsistentAt(st: PerfState, op: Operation)
    requires Consistent(st)
    ensures |Samples(st.times, op)| <= Tally(st.counts, op) && Tally(st.errors, op) <= Tally(st.counts, op)
  {
    if op in st.counts {
      assert ConsistentOp(st, op);
    }
  }

  /** Storing a sample leaves between one and one more than before. */
  lemma StoredBounds(before: seq<real>, duration: real, failed: bool)
    ensures 1 <= |Stored(before, duration, failed)| <= |before| + 1
  {
  }

  /** A run of failures on one operation: the samples grow by one per call, past 100. */
  lemma {:induction false} FailuresAreNotTrimmed(st: PerfState, op: Operation, durations: seq<real>)
    ensures |Samples(Failures(st, op, durations).times, op)| == |Samples(st.times, op)| + |durations|
    decreases |durations|
  {
    if durations != [] {
      FailuresAreNotTrimmed(Record(st, op, durations[0], true), op, durations[1..]);
    }
  }

  /** The state after a run of failed calls on one operation. */
  function Failures(st: PerfState, op: Operation, durations: seq<real>): PerfState
    decreases |durations|
  {
    if durations == [] then st else Failures(Record(st, op, durations[0], true), op, durations[1..])
  }

  /** One entry of `get_metrics`, without the float timing aggregates. */
  datatype OpMetrics = OpMetrics(count: nat, errorCount: nat, successRate: real)

  /** The entry `get_metrics` reports for an operation that has been called. */
  function MetricsOf(st: PerfState, op: Operation): OpMetrics
    requires Tally(st.counts, op) > 0
  {
    var count := Tally(st.counts, op);
    var errors := Tally(st.errors, op);
    OpMetrics(count, errors, 1.0 - (errors as real) / (count as real))
  }

  /**
   * In a consistent state every reported operation has been called, has
   * failed at most as often as it was called, and has a success rate between
   * 0 and 1: 1 when it never failed, 0 when it always failed.
   */
  lemma MetricsInRange(st: PerfState, op: Operation)
    requires Consistent(st) && op in st.counts
    ensures Tally(st.counts, op) > 0
    ensures var e := MetricsOf(st, op);
            && e.count == st.counts[op]
            && e.errorCount <= e.count
            && 0.0 <= e.successRate <= 1.0
            && (e.errorCount == 0 <==> e.successRate == 1.0)
            && (e.errorCount == e.count <==> e.successRate == 0.0)
  {
    assert ConsistentOp(st, op);
    var e := MetricsOf(st, op);
    FractionInUnit(e.errorCount as real, e.count as real);
  }

  /** A part over a positive whole lies between 0 and 1, at the ends exactly for none and all. */
  lemma FractionInUnit(part: real, whole: real)
    requires 0.0 <= part <= whole && whole > 0.0
    ensures 0.0 <= part / whole <= 1.0
    ensures part / whole == 0.0 <==> part == 0.0
    ensures part / whole == 1.0 <==> part == whole
  {
    assert part / whole * whole == part;
  }

  class PerfMonitor {
    var operationTimes: map<Operation, seq<real>>
    var operationCounts: map<Operation, nat>
    var errorCounts: map<Operation, nat>

    function State(): PerfState
      reads this
    {
      PerfState(operationTimes, operationCounts, errorCounts)
    }

    ghost predicate Valid()
      reads this
    {
      Consistent(State())
    }

    constructor ()
      ensures Valid() && State() == PerfState(map[], map[], map[])
    {
      operationTimes, operationCounts, errorCounts := map[], map[], map[];
    }

    /**
     * on_request after `call_next` has produced `inner` in `duration`
     * seconds: records the call and passes the outcome on unchanged.
     */
    method OnRequest(op: Operation, duration: real, inner: Reply) returns (r: Reply)
      requires Valid()
      modifies this
      ensures Valid()
      ensures r == inner && State() == Record(old(State()), op, duration, inner.Raised?)
    {
      ghost var before := State();
      var samples := Samples(operationTimes, op) + [duration];
      var counts := operationCounts[op := Tally(operationCounts, op) + 1];
      var errors := errorCounts;
      if inner.Done? {
        if |samples| > SampleCapacity {
          samples := samples[|samples| - SampleCapacity..];
        }
      } else {
        errors := errorCounts[op := Tally(errorCounts, op) + 1];
      }
      var after := PerfState(operationTimes[op := samples], counts, errors);
      assert samples == Stored(Samples(before.times, op), duration, inner.Raised?);
      assert after == Record(before, op, duration, inner.Raised?);
      RecordKeepsConsistent(before, op, duration, inner.Raised?);
      operationTimes, operationCounts, errorCounts := after.times, after.counts, after.errors;
      assert State() == after;
      r := inner;
    }

    /**
     * The counts of `get_metrics`: one entry per operation seen, each with
     * its call count, its error count and its success rate.
     */
    method Metrics() returns (m: map<Operation, OpMetrics>)
      requires Valid()
      ensures m.Keys == operationCounts.Keys
      ensures forall op | op in m :: Tally(operationCounts, op) > 0 && m[op] == MetricsOf(State(), op)
    {
      m := map[];
      var pending := operationCounts.Keys;
      while pending != {}
        invariant pending <= operationCounts.Keys
        invariant m.Keys == operationCounts.Keys - pending
        invariant forall op | op in m :: Tally(operationCounts, op) > 0 && m[op] == MetricsOf(State(), op)
        decreases pending
      {
        var op :| op in pending;
        var times := Samples(operationTimes, op);
        if times != [] {
          var count := operationCounts[op];
          var errors := Tally(errorCounts, op);
          m := m[op := OpMetrics(count, errors, 1.0 - (errors as real) / (count as real))];
        }
        pending := pending - {op};
      }
    }
  }
}
