/**
  pkg/o11y/logger.go: four logging methods that pick a level, and `log`,
  which assembles the record's attributes in a fixed order before handing
  them to slog.
 */
module Logger {
  import opened Wrappers
  import opened GoValues
  import opened Domain
  import opened Backend

  /** A caller-supplied log field. */
  datatype Field = Field(key: string, value: Any)

  /**
    The span context found in the request context: whether it is valid, and
    the hex renderings of its trace and span ids.
   */
  datatype SpanContext = SpanContext(valid: bool, traceId: string, spanId: string)

  function FieldAttr(f: Field): LogAttr
  {
    LogAttr(f.key, AnyValue(f.value))
  }

  function TraceAttrs(sc: SpanContext): seq<LogAttr>
  {
    if sc.valid then [LogAttr("trace_id", StringValue(sc.traceId)), LogAttr("span_id", StringValue(sc.spanId))] else []
  }

  function ErrorAttrs(err: Option<Error>): seq<LogAttr>
  {
    match err
    case Some(e) => [LogAttr("error", StringValue(ErrorText(e)))]
    case None => []
  }

  /** The attributes `log` hands to slog, in order. */
  function RecordAttrs(fields: seq<Field>, sc: SpanContext, err: Option<Error>, level: Level, now: Instant): seq<LogAttr>
  {
    seq(|fields|, j requires 0 <= j < |fields| => FieldAttr(fields[j]))
    + TraceAttrs(sc) + ErrorAttrs(err)
    + [LogAttr("level", StringValue(level.Name())), LogAttr("ts", TimeValue(now))]
  }

  /** `log`: the clock reading `now` and the context's span are parameters. */
  method Log(rec: Recorder, sc: SpanContext, level: Level, msg: string, err: Option<Error>, fields: seq<Field>, now: Instant)
    modifies rec
    ensures rec.nextSpan == old(rec.nextSpan)
    ensures rec.events == old(rec.events) + [LogEmitted(level, msg, RecordAttrs(fields, sc, err, level, now))]
  {
    var attrs: seq<LogAttr> := [];
    for i := 0 to |fields|
      invariant |attrs| == i
      invariant forall j :: 0 <= j < i ==> attrs[j] == FieldAttr(fields[j])
    {
      attrs := attrs + [LogAttr(fields[i].key, AnyValue(fields[i].value))];
    }
    assert attrs == seq(|fields|, j requires 0 <= j < |fields| => FieldAttr(fields[j]));
    if sc.valid {
      attrs := attrs + [LogAttr("trace_id", StringValue(sc.traceId))];
      attrs := attrs + [LogAttr("span_id", StringValue(sc.spanId))];
    }
    if err.Some? {
      attrs := attrs + [LogAttr("error", StringValue(ErrorText(err.value)))];
    }
    attrs := attrs + [LogAttr("level", StringValue(level.Name()))];
    attrs := attrs + [LogAttr("ts", TimeValue(now))];
    assert attrs == RecordAttrs(fields, sc, err, level, now);
    rec.Emit(LogEmitted(level, msg, attrs));
  }

  /** `Debug` logs at slog's Info level. */
  method Debug(rec: Recorder, sc: SpanContext, msg: string, fields: seq<Field>, now: Instant)
    modifies rec
    ensures rec.nextSpan == old(rec.nextSpan)
    ensures rec.events == old(rec.events) + [LogEmitted(LevelInfo, msg, RecordAttrs(fields, sc, None, LevelInfo, now))]
  {
    Log(rec, sc, LevelInfo, msg, None, fields, now);
  }

  /** `Info` logs at slog's Debug level. */
  method Info(rec: Recorder, sc: SpanContext, msg: string, fields: seq<Field>, now: Instant)
    modifies rec
    ensures rec.nextSpan == old(rec.nextSpan)
    ensures rec.events == old(rec.events) + [LogEmitted(LevelDebug, msg, RecordAttrs(fields, sc, None, LevelDebug, now))]
  {
    Log(rec, sc, LevelDebug, msg, None, fields, now);
  }

  method Warn(rec: Recorder, sc: SpanContext, msg: string, fields: seq<Field>, now: Instant)
    modifies rec
    ensures rec.nextSpan == old(rec.nextSpan)
    ensures rec.events == old(rec.events) + [LogEmitted(LevelWarn, msg, RecordAttrs(fields, sc, None, LevelWarn, now))]
  {
    Log(rec, sc, LevelWarn, msg, None, fields, now);
  }

  /** `Error` is the only method that hands its error on; `err` may still be nil. */
  method Error(rec: Recorder, sc: SpanContext, err: Option<Domain.Error>, msg: string, fields: seq<Field>, now: Instant)
    modifies rec
    ensures rec.nextSpan == old(rec.nextSpan)
    ensures rec.events == old(rec.events) + [LogEmitted(LevelError, msg, RecordAttrs(fields, sc, err, LevelError, now))]
  {
    Log(rec, sc, LevelError, msg, err, fields, now);
  }

  /** The record has one attribute per field, two for a valid span context, one for an error, then level and ts. */
  lemma AttributeCount(fields: seq<Field>, sc: SpanContext, err: Option<Error>, level: Level, now: Instant)
    ensures |RecordAttrs(fields, sc, err, level, now)|
         == |fields| + (if sc.valid then 2 else 0) + (if err.Some? then 1 else 0) + 2
  {
  }

  /** The caller's fields come first, in their order, keys and values unchanged. */
  lemma FieldsFirst(fields: seq<Field>, sc: SpanContext, err: Option<Error>, level: Level, now: Instant)
    ensures forall j :: 0 <= j < |fields| ==>
              RecordAttrs(fields, sc, err, level, now)[j] == LogAttr(fields[j].key, AnyValue(fields[j].value))
  {
  }

  /**
    After the fields: trace_id and span_id exactly when the span context is
    valid, then the error exactly when there is one, then level, then ts.
   */
  lemma FixedTail(fields: seq<Field>, sc: SpanContext, err: Option<Error>, level: Level, now: Instant)
    ensures var attrs := RecordAttrs(fields, sc, err, level, now);
            var n := |fields|;
            var t := if sc.valid then 2 else 0;
            && (sc.valid ==> attrs[n].key == "trace_id" && attrs[n + 1].key == "span_id")
            && (err.Some? ==> attrs[n + t] == LogAttr("error", StringValue(ErrorText(err.value))))
            && attrs[|attrs| - 2] == LogAttr("level", StringValue(level.Name()))
            && attrs[|attrs| - 1] == LogAttr("ts", TimeValue(now))
  {
  }

  /** Without a valid span context or an error, no attribute carries those keys. */
  lemma OptionalAttrsAbsent(fields: seq<Field>, sc: SpanContext, err: Option<Error>, level: Level, now: Instant)
    requires forall j :: 0 <= j < |fields| ==> fields[j].key !in {"trace_id", "span_id", "error"}
    ensures (exists a :: a in RecordAttrs(fields, sc, err, level, now) && a.key == "trace_id") <==> sc.valid
    ensures (exists a :: a in RecordAttrs(fields, sc, err, level, now) && a.key == "error") <==> err.Some?
  {
    var attrs := RecordAttrs(fields, sc, err, level, now);
    var n := |fields|;
    if sc.valid {
      assert attrs[n] in attrs;
    }
    if err.Some? {
      assert attrs[n + (if sc.valid then 2 else 0)] in attrs;
    }
  }
}
