/**
 * The types of the telemetry tracing API that the telemetry service, the
 * no-op tracer and the traceable runnable share. Spans and telemetry
 * back-ends are opaque handles; what a real tracer does with them is not part
 * of this model.
 */
module TelemetryTracing {

  /** A span created by a tracing back-end. */
  datatype Span = Span(handle: nat)

  /** The scope startSpan returns; NO_OP is the shared scope of the no-op tracer. */
  datatype SpanScope = NoopSpanScope | SpanScope(span: Span)

  const NO_OP: SpanScope := NoopSpanScope

  /** The telemetry that TelemetryModule selects from the installed plugins. */
  datatype Telemetry = Telemetry(handle: nat)

  datatype TelemetrySettings = TelemetrySettings(tracingFeatureEnabled: bool, metricsFeatureEnabled: bool)

  /** A tracer: the shared NoopTracer.INSTANCE, or a tracer over a telemetry back-end. */
  datatype Tracer = NoopTracer | DefaultTracer(telemetry: Telemetry)

  datatype TracerFactoryKind = NoopTracerFactory | RealTracerFactory(settings: TelemetrySettings, telemetry: Telemetry)

  /**
   * A tracer factory. The no-op factory always yields the no-op tracer; the
   * tracer a real factory yields may change over its lifetime, by code that is
   * not part of this model, and is held in currentTracer.
   */
  class TracerFactory {
    const kind: TracerFactoryKind
    var currentTracer: Tracer

    constructor Noop()
      ensures kind == NoopTracerFactory && GetTracer() == NoopTracer
    {
      kind := NoopTracerFactory;
      currentTracer := NoopTracer;
    }

    /** A real factory; the tracer it starts with is built by code outside this model and is given. */
    constructor (settings: TelemetrySettings, telemetry: Telemetry, initialTracer: Tracer)
      ensures kind == RealTracerFactory(settings, telemetry) && GetTracer() == initialTracer
    {
      kind := RealTracerFactory(settings, telemetry);
      currentTracer := initialTracer;
    }

    function GetTracer(): (tracer: Tracer)
      reads this
      ensures kind.NoopTracerFactory? ==> tracer == NoopTracer
    {
      if kind.NoopTracerFactory? then NoopTracer else currentTracer
    }
  }
}
