/** LoggingMiddleware: the payload echo with its length cap. */
module RequestLogging {

  /** Appended to a payload that was cut short. */
  const TruncationMarker := "... [truncated]"

  /** Python's `s[:n]`, where a negative `n` counts from the end. */
  function SliceTo(s: string, n: int): (r: string)
    ensures r <= s
    ensures n >= 0 ==> |r| == if n < |s| then n else |s|
    ensures n < 0 ==> |r| == if |s| + n > 0 then |s| + n else 0
  {
    if n >= 0 then (if n < |s| then s[..n] else s)
    else (if |s| + n > 0 then s[..|s| + n] else [])
  }

  /**
   * The payload text that on_message logs: the message cut to
   * `max_payload_length` characters, with the truncation marker appended
   * exactly when the message is longer than that.
   */
  function LoggedPayload(message: string, maxPayloadLength: int): (p: string)
    ensures |message| <= maxPayloadLength ==> p == message
    ensures 0 <= maxPayloadLength < |message| ==> p == message[..maxPayloadLength] + TruncationMarker
    ensures maxPayloadLength >= 0 ==> |p| <= maxPayloadLength + |TruncationMarker|
    ensures |message| > maxPayloadLength ==> |p| >= |TruncationMarker| && p[..|p| - |TruncationMarker|] <= message
  {
    var payload := SliceTo(message, maxPayloadLength);
    if |message| > maxPayloadLength then payload + TruncationMarker else payload
  }
}
