/**
 * RateLimitingMiddleware: a sliding 60-second window of request timestamps
 * per client, kept in `client_requests`.
 */
module RateLimiting {
  import opened Wrappers
  import opened Mcp

  /** Length of the sliding window, in seconds. */
  const WindowSeconds := 60

  /**
   * `_get_client_id`: the key under which a request is counted. Without
   * per-client limiting, or without a fastmcp context, every request shares
   * the "global" window; a context whose `client_id` is missing or empty
   * counts as "unknown".
   */
  function ClientKey(perClient: bool, req: Request): (key: string)
    ensures key != ""
    ensures !perClient || req.fastmcpContext.None? ==> key == "global"
    ensures perClient && req.fastmcpContext.Some? ==>
              var id := req.fastmcpContext.value.clientId;
              (id.Some? && id.value != "" ==> key == id.value) &&
              (id.None? || id.value == "" ==> key == "unknown")
  {
    if perClient && req.fastmcpContext.Some? then
      match req.fastmcpContext.value.clientId
      case Some(id) => if id != "" then id else "unknown"
      case None => "unknown"
    else
      "global"
  }

  /** The pruning comprehension: the timestamps strictly after `cutoff`, in their order. */
  function Recent(times: seq<int>, cutoff: int): seq<int> {
    if times == [] then []
    else if times[0] > cutoff then [times[0]] + Recent(times[1..], cutoff)
    else Recent(times[1..], cutoff)
  }

  /**
   * Pruning keeps exactly the timestamps after the cutoff, each as often as
   * it was recorded, and never adds any: a window entirely after the cutoff
   * is kept whole, one entirely at or before it is emptied.
   */
  lemma {:induction false} RecentSpec(times: seq<int>, cutoff: int)
    ensures var kept := Recent(times, cutoff);
            && |kept| <= |times|
            && (forall t :: t in kept <==> t in times && t > cutoff)
            && (forall t :: multiset(kept)[t] == if t > cutoff then multiset(times)[t] else 0)
            && ((forall t :: t in times ==> t > cutoff) ==> kept == times)
            && ((forall t :: t in times ==> t <= cutoff) ==> kept == [])
  {
    if times != [] {
      var rest := times[1..];
      RecentSpec(rest, cutoff);
      assert times == [times[0]] + rest;
      assert forall t :: t in times <==> t == times[0] || t in rest;
      assert times[0] in times;
      if forall t :: t in times ==> t > cutoff {
        assert forall t :: t in rest ==> t > cutoff;
        assert times[0] > cutoff;
      }
      if forall t :: t in times ==> t <= cutoff {
        assert forall t :: t in rest ==> t <= cutoff;
        assert times[0] <= cutoff;
      }
    }
  }

  /** `client_requests[key]`; the defaultdict reads a missing key as the empty list. */
  function WindowOf(windows: map<string, seq<int>>, key: string): seq<int> {
    if key in windows then windows[key] else []
  }

  /** The most timestamps a stored window ever holds under a given limit. */
  function Bound(maxPerMinute: int): nat {
    if maxPerMinute > 0 then maxPerMinute else 0
  }

  /** The ToolError raised for a request over the limit. */
  function RateLimitError(maxPerMinute: int): Error {
    Error(ToolError, "Rate limit exceeded. Maximum " + IntToString(maxPerMinute) + " requests per minute allowed.")
  }

  /** The outcome of one admission check: the error raised, if any, and the window stored afterwards. */
  datatype Admission = Admission(rejection: Option<Error>, window: seq<int>)

  /**
   * The admission rule of `on_request` for one client's window at time `now`:
   * the window is pruned to the last 60 seconds; a full window rejects the
   * request without recording it; otherwise `now` is recorded.
   */
  function Admit(window: seq<int>, now: int, maxPerMinute: int): Admission {
    var kept := Recent(window, now - WindowSeconds);
    if |kept| >= maxPerMinute then Admission(Some(RateLimitError(maxPerMinute)), kept)
    else Admission(None, kept + [now])
  }

  /**
   * A request is rejected exactly when the pruned window is full; a
   * rejected request leaves the pruned window, an admitted one is appended
   * to it. Either way the stored window holds only the last 60 seconds and
   * never more timestamps than the limit allows.
   */
  lemma AdmitSpec(window: seq<int>, now: int, maxPerMinute: int)
    ensures var a := Admit(window, now, maxPerMinute);
            var kept := Recent(window, now - WindowSeconds);
            && (a.rejection.Some? <==> |kept| >= maxPerMinute)
            && (a.rejection.Some? ==> a.rejection.value == RateLimitError(maxPerMinute) && a.window == kept)
            && (a.rejection.None? ==> a.window == kept + [now] && |a.window| <= maxPerMinute)
            && (forall t :: t in a.window ==> now - WindowSeconds < t)
            && (|window| <= Bound(maxPerMinute) ==> |a.window| <= Bound(maxPerMinute))
  {
    var kept := Recent(window, now - WindowSeconds);
    RecentSpec(window, now - WindowSeconds);
    if |kept| < maxPerMinute {
      forall t | t in kept + [now] ensures now - WindowSeconds < t {
        if t != now {
          assert t in kept;
        }
      }
    }
  }

  /** Whether each of a run of requests from one client is admitted, starting from `window`. */
  function Decisions(window: seq<int>, times: seq<int>, maxPerMinute: int): (admitted: seq<bool>)
    ensures |admitted| == |times|
    decreases |times|
  {
    if times == [] then []
    else
      var a := Admit(window, times[0], maxPerMinute);
      [a.rejection.None?] + Decisions(a.window, times[1..], maxPerMinute)
  }

  /**
   * Requests that all fall within one 60-second span ending at `last`: while
   * the window still has room each is admitted, and from the moment it is
   * full every further one is rejected.
   */
  lemma {:induction false} BurstAdmitsUpToLimit(window: seq<int>, times: seq<int>, maxPerMinute: int, last: int)
    requires forall t :: t in window ==> last - WindowSeconds < t
    requires forall t :: t in times ==> last - WindowSeconds < t <= last
    ensures forall i :: 0 <= i < |times| ==>
              Decisions(window, times, maxPerMinute)[i] == (|window| + i < maxPerMinute)
    decreases |times|
  {
    if times != [] {
      var now := times[0];
      assert now in times;
      RecentSpec(window, now - WindowSeconds);
      assert Recent(window, now - WindowSeconds) == window;
      var a := Admit(window, now, maxPerMinute);
      AdmitSpec(window, now, maxPerMinute);
      forall t | t in times[1..] ensures last - WindowSeconds < t <= last {
        assert t in times;
      }
      BurstAdmitsUpToLimit(a.window, times[1..], maxPerMinute, last);
      var d := Decisions(window, times, maxPerMinute);
      forall i | 0 <= i < |times| ensures d[i] == (|window| + i < maxPerMinute) {
        if i > 0 {
          assert d[i] == Decisions(a.window, times[1..], maxPerMinute)[i - 1];
        }
      }
    }
  }

  /** From an empty window, `max` requests within one minute pass and the next one is refused. */
  lemma FirstMaxRequestsPass(times: seq<int>, maxPerMinute: int, last: int)
    requires forall t :: t in times ==> last - WindowSeconds < t <= last
    ensures forall i :: 0 <= i < |times| ==> Decisions([], times, maxPerMinute)[i] == (i < maxPerMinute)
  {
    BurstAdmitsUpToLimit([], times, maxPerMinute, last);
  }

  /** Once every recorded request is 60 or more seconds old, a new request passes whenever the limit is positive. */
  lemma ElapsedWindowAdmits(window: seq<int>, now: int, maxPerMinute: int)
    requires forall t :: t in window ==> t <= now - WindowSeconds
    ensures Admit(window, now, maxPerMinute).rejection.None? <==> maxPerMinute > 0
    ensures Admit(window, now, maxPerMinute).rejection.None? ==> Admit(window, now, maxPerMinute).window == [now]
  {
    RecentSpec(window, now - WindowSeconds);
  }

  class RateLimiter {
    const maxRequestsPerMinute: int
    const perClient: bool
    /** `client_requests`: client key to the timestamps of its admitted requests. */
    var clientRequests: map<string, seq<int>>

    /** Every stored window is within the limit. */
    ghost predicate Valid()
      reads this
    {
      forall key | key in clientRequests :: |clientRequests[key]| <= Bound(maxRequestsPerMinute)
    }

    constructor (maxRequestsPerMinute: int, perClient: bool)
      ensures this.maxRequestsPerMinute == maxRequestsPerMinute && this.perClient == perClient
      ensures clientRequests == map[] && Valid()
    {
      this.maxRequestsPerMinute := maxRequestsPerMinute;
      this.perClient := perClient;
      clientRequests := map[];
    }

    function Window(key: string): seq<int>
      reads this
    {
      WindowOf(clientRequests, key)
    }

    /**
     * `on_request` up to `call_next`: prunes and checks the caller's window.
     * Returns the ToolError it raises, or None when it records `now` and
     * goes on to `call_next`. Only the caller's own window changes.
     */
    method OnRequest(req: Request, now: int) returns (rejection: Option<Error>)
      requires Valid()
      modifies this
      ensures Valid()
      ensures var key := ClientKey(perClient, req);
              var a := Admit(old(Window(key)), now, maxRequestsPerMinute);
              rejection == a.rejection && clientRequests == old(clientRequests)[key := a.window]
      ensures forall key | key != ClientKey(perClient, req) :: Window(key) == old(Window(key))
    {
      var key := ClientKey(perClient, req);
      AdmitSpec(Window(key), now, maxRequestsPerMinute);
      var cutoff := now - WindowSeconds;
      clientRequests := clientRequests[key := Recent(Window(key), cutoff)];
      if |clientRequests[key]| >= maxRequestsPerMinute {
        rejection := Some(RateLimitError(maxRequestsPerMinute));
        return;
      }
      clientRequests := clientRequests[key := clientRequests[key] + [now]];
      rejection := None;
    }
  }
}
