/**
  The OpenTelemetry SDK and `log/slog` as the service sees them: every
  counter add, histogram record, span operation and log record is an event
  appended to one timeline. Spans are told apart by the number the backend
  hands out when a span starts.
 */
module Backend {
  import opened GoValues
  import opened Domain
  import opened Labels

  /** The span status codes the service sets (codes.Ok, codes.Error). */
  datatype StatusCode = StatusOk | StatusError

  /** The four slog levels the logger uses. */
  datatype Level = LevelDebug | LevelInfo | LevelWarn | LevelError
  {
    /** `slog.Level.String()` for these four levels. */
    function Name(): string
    {
      match this
      case LevelDebug => "DEBUG"
      case LevelInfo => "INFO"
      case LevelWarn => "WARN"
      case LevelError => "ERROR"
    }
  }

  /** A wall-clock reading, opaque to the model. */
  datatype Instant = Instant(unixNanos: int)

  /** The values of slog attributes built by slog.Any, slog.String and slog.Time. */
  datatype LogValue = AnyValue(v: Any) | StringValue(s: string) | TimeValue(t: Instant)

  datatype LogAttr = LogAttr(key: string, value: LogValue)

  datatype Event =
    | CounterAdded(name: string, delta: Int64, attrs: seq<KeyValue>)
    | HistogramRecorded(name: string, value: real, attrs: seq<KeyValue>)
    | SpanStarted(span: nat, spanName: string)
    | SpanAttributesSet(span: nat, attrs: seq<KeyValue>)
    | SpanErrorRecorded(span: nat, err: Error)
    | SpanStatusSet(span: nat, code: StatusCode, description: string)
    | SpanEnded(span: nat)
    | LogEmitted(level: Level, msg: string, logAttrs: seq<LogAttr>)

  class Recorder {
    /** Everything emitted so far, oldest first. */
    var events: seq<Event>
    /** The number the next span started will get. */
    var nextSpan: nat
    /** Instrument names whose creation (Int64Counter, Float64Histogram) fails. */
    const rejected: set<string>

    constructor (rejected: set<string>)
      ensures events == [] && nextSpan == 0 && this.rejected == rejected
    {
      events := [];
      nextSpan := 0;
      this.rejected := rejected;
    }

    method Emit(e: Event)
      modifies this
      ensures events == old(events) + [e] && nextSpan == old(nextSpan)
    {
      events := events + [e];
    }

    /** Start a span: a fresh number, and its start event. */
    method NewSpan(name: string) returns (span: nat)
      modifies this
      ensures span == old(nextSpan) && nextSpan == span + 1
      ensures events == old(events) + [SpanStarted(span, name)]
    {
      span := nextSpan;
      nextSpan := nextSpan + 1;
      events := events + [SpanStarted(span, name)];
    }
  }
}
