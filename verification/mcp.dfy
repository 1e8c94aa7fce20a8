/**
 * The values that travel through the request middleware: the request context
 * a stage sees, the protocol errors it may raise, and the reply that comes
 * back out of `call_next`.
 */
module Mcp {
  import opened Wrappers

  /** The class of a raised exception; the three protocol errors are named. */
  datatype ErrorKind = ToolError | ResourceError | PromptError | OtherError(typeName: string)
  {
    /** ToolError, ResourceError and PromptError: the errors already in protocol form. */
    predicate IsProtocolError() {
      !OtherError?
    }

    /** `type(error).__name__` */
    function TypeName(): string {
      match this
      case ToolError => "ToolError"
      case ResourceError => "ResourceError"
      case PromptError => "PromptError"
      case OtherError(name) => name
    }
  }

  /** A raised exception: its class and `str(error)`. */
  datatype Error = Error(kind: ErrorKind, message: string)

  /** What `call_next` produces: a result, or an exception propagating outwards. */
  datatype Reply = Done(result: string) | Raised(error: Error)

  /** The fastmcp context object; `client_id` may be missing, `None` or empty. */
  datatype ClientContext = ClientContext(clientId: Option<string>)

  /**
   * The middleware context of one request: `context.method` (`methodName`, may be `None`),
   * `context.fastmcp_context` (absent or falsy is `None`) and `str(context.message)`.
   */
  datatype Request = Request(methodName: Option<string>, fastmcpContext: Option<ClientContext>, message: string)

  /** How an f-string renders `context.method`. */
  function MethodText(methodName: Option<string>): string {
    match methodName
    case None => "None"
    case Some(m) => m
  }

  function DigitChar(d: nat): char
    requires d < 10
  {
    "0123456789"[d]
  }

  /** Decimal digits of a natural number, most significant first. */
  function NatToString(n: nat): string {
    if n < 10 then [DigitChar(n)] else NatToString(n / 10) + [DigitChar(n % 10)]
  }

  /** Decimal rendering of an integer, as `str(n)`. */
  function IntToString(n: int): string {
    if n < 0 then "-" + NatToString(-n) else NatToString(n)
  }
}
