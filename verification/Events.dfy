/** Captured traffic in its three shapes: inside the daemon, on the gRPC wire, and as web JSON. */
module Events {

  datatype Option<+T> = None | Some(value: T)

  /** The proxy's event channel and each subscriber's channel hold this many events. */
  const EVENTS_CAPACITY: nat := 256
  const BUF_SIZE: nat := 256

  type Byte = b: int | 0 <= b < 256

  /** http.Header. A nil header and an empty one are the same value here. */
  type Header = map<string, seq<string>>

  /** proxy.Event; durations are nanoseconds. */
  datatype Event = Event(
    id: string,
    verb: string,
    path: string,
    status: int,
    startTime: int,
    duration: int,
    error: string,
    requestHeaders: Header,
    responseHeaders: Header,
    requestBody: seq<Byte>,
    responseBody: seq<Byte>)

  /** tapv1.HTTPEvent, what the TUI holds. */
  datatype TapEvent = TapEvent(
    id: string,
    verb: string,
    path: string,
    status: int,
    startTime: int,
    duration: int,
    error: string,
    requestHeaders: map<string, string>,
    responseHeaders: map<string, string>,
    requestBody: seq<Byte>,
    responseBody: seq<Byte>)

  /** The part of web.eventJSON the browser's statistics use. duration_ms is a number of
      whole microseconds divided by 1000; it is kept here as that number of microseconds. */
  datatype JsonEvent = JsonEvent(
    id: string,
    verb: string,
    path: string,
    status: int,
    durationMicros: int,
    error: string)

  /** Go's integer division, which truncates toward zero. */
  function GoDiv(a: int, b: int): int
    requires b > 0
  {
    if a >= 0 then a / b else -((-a) / b)
  }

  /** time.Duration.Microseconds */
  function Microseconds(nanos: int): int {
    GoDiv(nanos, 1000)
  }
}
