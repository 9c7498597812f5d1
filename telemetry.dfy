/**
  pkg/o11y/telemetry.go: the facade that holds a tracer, a metrics recorder
  and a logger. Its components are type parameters: the constructor looks at
  none of them, so any value, nil included, is accepted.
 */
module TelemetryFacade {
  import opened Wrappers
  import opened Domain

  datatype Telemetry<T, M, L> = Telemetry(tracer: T, metrics: M, logger: L)
  {
    function Tracer(): T { tracer }

    function Metrics(): M { metrics }

    function Logger(): L { logger }
  }

  /** `NewTelemetry`: builds the facade and returns a nil error. */
  function NewTelemetry<T, M, L>(tracer: T, metrics: M, logger: L): (r: (Telemetry<T, M, L>, Option<Error>))
    ensures r.1 == None
    ensures r.0.Tracer() == tracer && r.0.Metrics() == metrics && r.0.Logger() == logger
  {
    (Telemetry(tracer, metrics, logger), None)
  }
}
