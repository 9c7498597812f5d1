# go-error in Dafny

A model of the example service `go-error`: one endpoint, `GET /users/{id}`,
whose use case returns either a user or an error; a domain error type with a
closed set of codes; a boundary error handler that maps every error to an
HTTP status and a JSON body; and a small observability facade (tracer,
metrics, logger) over OpenTelemetry and `log/slog`.

Modules, one per Go source file modelled, plus shared ones:

- `Wrappers` — `Option`, for Go's nil.
- `GoValues` — Go's `any` as a sum type (`Str`, `I64`, `Int`, `Bool`, `Nil`, `Other`), `int64` and `int` as 64-bit newtypes, and the `%v` rendering. `Other(text)` stands for a value of any other dynamic type (a float, a struct) and carries the text `%v` prints for it.
- `Domain` — `internal/domain/errors.go`. An `Error` is either a `DomainError` (code, message, details, optional cause) or a `Plain` error known by its text.
- `Labels` — the pair walk that `parseLabels` and `StartSpan` both perform. `PairAttributes` is the specification that both loops are proved against.
- `Backend` — the OpenTelemetry SDK and slog, abstracted as a `Recorder`. It is a timeline of events: counter adds, histogram records, span operations tagged with a span number, and log records. It also holds the set of instrument names whose creation fails.
- `Metrics`, `Tracer`, `Logger`, `TelemetryFacade` — `pkg/o11y/metrics.go`, `tracer.go`, `logger.go`, `telemetry.go`.
- `Fiber` — responses as (status, body) values.
- `ErrorHandler`, `UseCase`, `UserHandler` — `error_handler.go`, `user.go`, `user_handler.go`. `UserHandler.Endpoint` composes them into the end-to-end answer.

Where the code's behaviour is easy to mistake, the model follows it as written:

- The generic message is `"Erro inesperado"`.
- `Debug` logs at slog's Info level and `Info` at its Debug level.
- Nothing requires a DomainError's message to be non-empty.
- Float labels take the stringifying default branch.

## Model

| member | source | states |
|---|---|---|
| `Domain.CodesDistinct` | internal/domain/errors.go:8-10 | the three codes are "NOT_FOUND", "INVALID_INPUT", "INTERNAL_ERROR" and pairwise distinct |
| `Domain.NewDomainError` | internal/domain/errors.go:27-34 | always returns a DomainError (never nil, no requires) holding code, message, details and cause unchanged |
| `Domain.TextWithoutCause` | internal/domain/errors.go:24 | with no cause, `Error()` is exactly "[" + code + "] " + message |
| `Domain.TextWithCause` | internal/domain/errors.go:21-22 | with a cause, `Error()` is "[" + code + "] " + message + ": " + the cause's own text |
| `Domain.TextWithoutCauseIsPrefix` | internal/domain/errors.go:20-25 | the text without cause is a prefix of the text with any cause, for the same code and message |
| `Labels.Convert` | pkg/o11y/metrics.go:78-89 | keeps the key; a string, int64, int or bool value keeps its type and value (it reads back as the input); any other value becomes a string attribute holding its `%v` text, never dropped |
| `Labels.ShortListsGiveNothing` | pkg/o11y/metrics.go:72 | a list of fewer than two elements, such as the single nil, yields no attributes |
| `Labels.AtMostOnePerPair` | pkg/o11y/metrics.go:71-91 | at most len(labels)/2 attributes |
| `Labels.PairsInOrder` | pkg/o11y/metrics.go:71-91 | the walk distributes over concatenation at a pair boundary, so the output keeps the order of the input pairs |
| `Labels.TrailingElementIgnored` | pkg/o11y/metrics.go:72 | an unpaired last element changes nothing |
| `Labels.NonStringKeySkipped` | pkg/o11y/metrics.go:73-76 | a pair whose key is not a string produces no attribute, and the walk continues with the next pair |
| `Labels.StringKeysKeepEveryPair` | pkg/o11y/metrics.go:72-90 | when every key is a string, there is exactly one attribute per pair, and the j-th is the conversion of the j-th pair |
| `Metrics.ParseLabels` | pkg/o11y/metrics.go:70-92 | the `i += 2` loop computes exactly the pair walk `PairAttributes` |
| `Metrics.AddCounter` | pkg/o11y/metrics.go:52-59 | appends one counter event carrying the delta and the parsed labels, or nothing when the instrument cannot be created |
| `Metrics.RecordHistogram` | pkg/o11y/metrics.go:61-68 | appends one histogram event carrying the value and the parsed labels, or nothing when the instrument cannot be created |
| `Metrics.CounterCarriesParsedLabels` | pkg/o11y/metrics.go:52-59 | for an instrument that can be created, the counter event carries the parsed labels, at most one per pair |
| `Tracer.StartSpan` | pkg/o11y/tracer.go:57-101 | converts attributes by the same pair walk as `parseLabels`; starts a new span; sets attributes only if some were produced; returns an unended guard for that span |
| `Tracer.AttributesOnlyWhenProduced` | pkg/o11y/tracer.go:79-81 | the start emits an attribute-setting event if and only if at least one attribute was produced |
| `Tracer.EndGuard.End` | pkg/o11y/tracer.go:83-99 | sets `ended`; emits the end effects only if `ended` was false before the call |
| `Tracer.EndTwice` | pkg/o11y/tracer.go:83-99 | on one guard object, two calls emit exactly what the first call emits: the second does nothing whatever its argument |
| `Tracer.EndedCallsDoNothing` | pkg/o11y/tracer.go:85-87 | once `ended` is set, any number of further calls emit nothing, whatever their argument |
| `Tracer.FirstCallDecides` | pkg/o11y/tracer.go:83-99 | any non-empty sequence of calls has exactly the effect of its first call |
| `Tracer.EndIsIdempotent` | pkg/o11y/tracer.go:83-99 | two calls have the same effect as one |
| `Tracer.SpanEndedExactlyOnce` | pkg/o11y/tracer.go:83-99 | over any non-empty sequence of calls, `span.End` happens exactly once, and last |
| `Tracer.FirstCallWithError` | pkg/o11y/tracer.go:90-95 | a first call with an error records it and sets status Error with the error's text, and no other status |
| `Tracer.FirstCallWithoutError` | pkg/o11y/tracer.go:97-98 | a first call without an error sets status Ok "OK", ends the span and records no error |
| `Tracer.WithSpan` | pkg/o11y/tracer.go:103-110 | returns the callback's error unchanged and ends the new span with that same error |
| `Logger.Log` | pkg/o11y/logger.go:78-101 | emits one record at the given level whose attributes are `RecordAttrs`: fields, trace and span ids, error, level, ts |
| `Logger.Debug` | pkg/o11y/logger.go:62-64 | emits at the Info level, with no error |
| `Logger.Info` | pkg/o11y/logger.go:66-68 | emits at the Debug level, with no error |
| `Logger.Warn` | pkg/o11y/logger.go:70-72 | emits at the Warn level, with no error |
| `Logger.Error` | pkg/o11y/logger.go:74-76 | emits at the Error level and is the one method that passes its error on |
| `Logger.AttributeCount` | pkg/o11y/logger.go:81-96 | the count is len(fields) + 2 if the span context is valid + 1 if there is an error + 2 |
| `Logger.FieldsFirst` | pkg/o11y/logger.go:82-84 | the caller's fields come first, in order, keys and values unchanged |
| `Logger.FixedTail` | pkg/o11y/logger.go:86-96 | after the fields come trace_id and span_id (valid context only), then the error text (error only), then "level" equal to the record's level name, then ts |
| `Logger.OptionalAttrsAbsent` | pkg/o11y/logger.go:86-93 | if no caller field uses those keys, a trace_id attribute is present iff the span context is valid, and an error attribute iff there is an error |
| `TelemetryFacade.NewTelemetry` | pkg/o11y/telemetry.go:9-27 | never returns an error, accepts any components (nil included) without checking them, and the three accessors return exactly what was given |
| `ErrorHandler.Handle` | internal/infrastructure/http/error_handler.go:10-40 | total, so the trailing `return nil` is unreachable; a DomainError gives 404 for NOT_FOUND, 400 for INVALID_INPUT and 500 otherwise, with a body of exactly its code, message and details; any other error gives the fixed generic 500 body |
| `ErrorHandler.StatusClassification` | internal/infrastructure/http/error_handler.go:11-18 | both directions: 404 iff NOT_FOUND DomainError, 400 iff INVALID_INPUT DomainError, 500 iff unclassified or any other code |
| `ErrorHandler.InternalCodeIsDefault` | internal/infrastructure/http/error_handler.go:12-18 | INTERNAL_ERROR takes the default 500 and keeps its own message and details |
| `ErrorHandler.CauseNeverExposed` | internal/infrastructure/http/error_handler.go:21-27 | the response does not depend on the DomainError's cause |
| `ErrorHandler.UnclassifiedNotLeaked` | internal/infrastructure/http/error_handler.go:30-37 | all non-DomainErrors give the same response, whatever their text, without details |
| `UseCase.Lookup` | internal/application/usecase/user.go:32-56 | success iff id is "123", with the sample user; "" gives INVALID_INPUT with details {field: id} and no cause; "500" gives the plain error "deu ruim"; any other id gives NOT_FOUND with details {id: id} and a cause |
| `UseCase.GetUserByID` | internal/application/usecase/user.go:23-57 | returns `Lookup(id)` and appends the call's events: span start, counter, log line, the span attribute for "", the histogram on success, span end |
| `UseCase.NilLabelsGiveNothing` | internal/application/usecase/user.go:29 | the single nil label passed to the counter and the histogram parses to no attributes |
| `UseCase.OneCounterPerCall` | internal/application/usecase/user.go:29 | every call has exactly one counter event, with delta 1, before any branching |
| `UseCase.HistogramOnlyOnSuccess` | internal/application/usecase/user.go:55 | a histogram event is recorded iff the id is the known one |
| `UseCase.SpanEndedOnEveryPath` | internal/application/usecase/user.go:24-25 | on every path the span is started first and ended exactly once, last |
| `UseCase.CallLoggedAtDebug` | internal/application/usecase/user.go:30 | the call is logged through `Info`, so at the Debug level, with the id as first attribute |
| `UserHandler.Reply` | internal/infrastructure/http/user_handler.go:20-27 | an error is returned as it is; success writes 200 with body {"data": user} |
| `UserHandler.ErrorsPassedOnUnchanged` | internal/infrastructure/http/user_handler.go:20-22 | a use-case error is passed on without wrapping |
| `UserHandler.GetUser` | internal/infrastructure/http/user_handler.go:16-28 | runs the use case on exactly the path id, and replies from its result |
| `UserHandler.Serve` | cmd/api/main.go:46-53 | a written response is kept; a returned error is answered by the error handler |
| `UserHandler.Endpoint` | internal/infrastructure/http/user_handler.go:16-27 | end to end: "" gives 400 with its field detail, "500" the generic 500 body, "123" 200 with the sample user, any other id 404 echoing the id |
| `UserHandler.UnknownIdScenario` | internal/application/usecase/user.go:46-52 | the id "999" gives exactly 404 with NOT_FOUND and details {id: "999"} |
| `UserHandler.FailureTextNotLeaked` | internal/infrastructure/http/error_handler.go:30-37 | for the failing id the body carries INTERNAL_ERROR, not the failure's text, and no details |

## Left out

- Exporter and provider construction and their shutdown closures (`NewTracer`, `NewMetrics`, `NewLogger`, `NewServiceResource`): they only configure the OpenTelemetry SDK and its network exporters.
- Process wiring, serving and shutdown in `cmd/api/main.go`. The only part kept is that Fiber hands returned errors to the error handler (`UserHandler.Serve`).
- The logger's `sync.RWMutex`: it exists only for concurrent use; the model is sequential.
- Clocks and measurements: `time.Now` is the `now` parameter and `time.Since(...).Seconds()` the `elapsed` parameter. Neither is interpreted.
- Fiber's JSON encoding and `c.Params`. A response is a (status, body) value and the path parameter a string.
- The model does not distinguish a nil details map (encoded as `null`) from an empty one (encoded as `{}`).
- The request context. The span context the logger sees is a `SpanContext` parameter. Its validity and the hex text of its trace and span ids are inputs, not computed.
- The text `%v` prints for values of other types: `Other` carries it.
- How the SDK stores attributes internally. For example, `attribute.Int` keeps an int64; the model records which constructor was called.
- `Tracer.WithSpan`: the callback is represented only by the error it returns. Any telemetry the callback emits, and the context it receives, are not modelled.
- `UseCase.GetUserByID`: `Tracer().Start`, `span.End` and `o11y.Attribute` are not part of the `Tracer` interface shown. They are modelled as a span start, a span end and a string span attribute in the timeline.
- `UseCase.GetUserByID`: `GetUser` calls it without a context. The model follows the behaviour, not either call shape.
- How the SDK tells spans apart. The backend numbers spans in start order.
- `UseCase.GetUserByID`: the use case does not reach its components through the facade's `Tracer()`, `Metrics()` and `Logger()` accessors. It calls the span start, `Metrics.AddCounter`, `Metrics.RecordHistogram` and `Logger.Info` on one shared `Recorder`.
- `Logger.Log`: `LogEmitted` stands for the call to slog's `LogAttrs`. Whether the slog handler then drops a record because of its level is not modelled. That filtering is where the Info/Debug swap would make a difference.
- `TelemetryFacade.NewTelemetry`: the facade is a value. Go returns a pointer, so two facades built from the same components are distinct objects; that identity is not modelled.
- A no-op backend: the service does not define one. The facade's components are type parameters, so any value can stand in.
