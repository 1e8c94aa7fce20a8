/**
 * ErrorHandlingMiddleware: counts every failure that reaches it by error
 * class and method, and rewrites non-protocol errors by method prefix.
 */
module ErrorHandling {
  import opened Wrappers
  import opened Mcp

  /** The `error_counts` key: "<TypeName>:<method>". */
  function ErrorKey(e: Error, methodName: Option<string>): string {
    e.kind.TypeName() + ":" + MethodText(methodName)
  }

  /** `error_counts[key]` as the defaultdict reads it. */
  function Count(counts: map<string, nat>, key: string): nat {
    if key in counts then counts[key] else 0
  }

  /** The error class and message prefix chosen by the method prefix; `None` reads as "". */
  function Wrapping(methodName: Option<string>): (ErrorKind, string) {
    var m := if methodName.Some? then methodName.value else "";
    if "tools/" <= m then (ToolError, "Tool execution failed: ")
    else if "resources/" <= m then (ResourceError, "Resource access failed: ")
    else if "prompts/" <= m then (PromptError, "Prompt execution failed: ")
    else (ToolError, "Operation failed: ")
  }

  /**
   * The error that on_message re-raises for a caught error. With
   * transformation off, or for an error already in protocol form, it is the
   * original one; otherwise it becomes a protocol error whose message ends
   * with the original message.
   */
  function Rewrite(transformErrors: bool, methodName: Option<string>, e: Error): (r: Error)
    ensures !transformErrors || e.kind.IsProtocolError() ==> r == e
    ensures transformErrors ==> r.kind.IsProtocolError()
  {
    if !transformErrors || e.kind.IsProtocolError() then e
    else
      var (kind, prefix) := Wrapping(methodName);
      Error(kind, prefix + e.message)
  }

  /** A rewritten error keeps the original message at its end. */
  lemma RewriteKeepsMessage(transformErrors: bool, methodName: Option<string>, e: Error)
    ensures var r := Rewrite(transformErrors, methodName, e);
            |e.message| <= |r.message| && r.message[|r.message| - |e.message|..] == e.message
  {
    var r := Rewrite(transformErrors, methodName, e);
    if transformErrors && !e.kind.IsProtocolError() {
      var prefix := Wrapping(methodName).1;
      assert r.message == prefix + e.message;
      assert r.message[|prefix|..] == e.message;
    }
  }

  /** The four rewriting rules for an error that is not yet a protocol error. */
  lemma RewriteByMethodPrefix(methodName: Option<string>, e: Error)
    requires !e.kind.IsProtocolError()
    ensures var m := if methodName.Some? then methodName.value else "";
            var r := Rewrite(true, methodName, e);
            && ("tools/" <= m ==> r == Error(ToolError, "Tool execution failed: " + e.message))
            && (!("tools/" <= m) && "resources/" <= m ==> r == Error(ResourceError, "Resource access failed: " + e.message))
            && (!("tools/" <= m) && !("resources/" <= m) && "prompts/" <= m ==>
                  r == Error(PromptError, "Prompt execution failed: " + e.message))
            && (!("tools/" <= m) && !("resources/" <= m) && !("prompts/" <= m) ==>
                  r == Error(ToolError, "Operation failed: " + e.message))
  {
  }

  /**
   * A rewritten error is never rewritten again: an outer error handler,
   * whatever its method, passes it through unchanged.
   */
  lemma RewriteIsFinal(transformErrors: bool, methodName: Option<string>, outer: Option<string>, e: Error)
    ensures Rewrite(transformErrors, outer, Rewrite(transformErrors, methodName, e)) == Rewrite(transformErrors, methodName, e)
  {
  }

  /** What on_message re-raises or returns, and the `error_counts` afterwards. */
  datatype Handled = Handled(reply: Reply, counts: map<string, nat>)

  /**
   * The except-clause of on_message applied to the outcome of `call_next`.
   * A result passes through and nothing is counted; a failure increments
   * exactly its own "<TypeName>:<method>" count by one and is re-raised,
   * rewritten when transformation asks for it.
   */
  function Handle(transformErrors: bool, counts: map<string, nat>, req: Request, inner: Reply): (h: Handled)
    ensures inner.Done? ==> h.reply == inner
    ensures inner.Raised? ==> h.reply == Raised(Rewrite(transformErrors, req.methodName, inner.error))
  {
    match inner
    case Done(_) => Handled(inner, counts)
    case Raised(e) =>
      var key := ErrorKey(e, req.methodName);
      Handled(Raised(Rewrite(transformErrors, req.methodName, e)), counts[key := Count(counts, key) + 1])
  }

  /**
   * The counts after on_message: a result leaves them as they were; a
   * failure raises its own "<TypeName>:<method>" count by one and no other.
   */
  lemma HandleCounts(transformErrors: bool, counts: map<string, nat>, req: Request, inner: Reply)
    ensures var h := Handle(transformErrors, counts, req, inner);
            && (inner.Done? ==> h.counts == counts)
            && (inner.Raised? ==> h.counts.Keys == counts.Keys + {ErrorKey(inner.error, req.methodName)})
            && forall key :: Count(h.counts, key) ==
                 Count(counts, key) + (if inner.Raised? && key == ErrorKey(inner.error, req.methodName) then 1 else 0)
  {
    var h := Handle(transformErrors, counts, req, inner);
    if inner.Raised? {
      var own := ErrorKey(inner.error, req.methodName);
      assert h.counts == counts[own := Count(counts, own) + 1];
      forall key ensures Count(h.counts, key) == Count(counts, key) + (if key == own then 1 else 0) {
        if key != own {
          assert (key in h.counts) == (key in counts);
        }
      }
    }
  }

  class ErrorHandler {
    const transformErrors: bool
    /** `error_counts`: failures seen, by "<TypeName>:<method>". */
    var errorCounts: map<string, nat>

    constructor (transformErrors: bool)
      ensures this.transformErrors == transformErrors && errorCounts == map[]
    {
      this.transformErrors := transformErrors;
      errorCounts := map[];
    }

    /**
     * on_message after `call_next` has returned `inner`: counts a failure and
     * re-raises it, rewritten by method prefix when transformation is on and
     * it is not yet a protocol error.
     */
    method OnMessage(req: Request, inner: Reply) returns (r: Reply)
      modifies this
      ensures var h := Handle(transformErrors, old(errorCounts), req, inner);
              r == h.reply && errorCounts == h.counts
    {
      if inner.Done? {
        return inner;
      }
      var error := inner.error;
      var key := ErrorKey(error, req.methodName);
      errorCounts := errorCounts[key := Count(errorCounts, key) + 1];
      if transformErrors {
        if error.kind.IsProtocolError() {
          r := inner;
        } else {
          var (kind, prefix) := Wrapping(req.methodName);
          r := Raised(Error(kind, prefix + error.message));
        }
      } else {
        r := inner;
      }
    }
  }
}
