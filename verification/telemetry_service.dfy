/**
 * The node's telemetry service (TelemetryService): at construction it selects
 * a real or a no-op tracer factory and metrics registry factory from the
 * TELEMETRY feature flag and the tracing and metrics settings, hands out their
 * tracer and registry, and on close closes the registry before the tracer.
 */
module TelemetryServices {
  import opened Wrappers
  import opened TelemetryTracing

  datatype MetricsRegistryFactory =
    | NoopMetricsRegistryFactory
    | MetricsRegistryFactory(settings: TelemetrySettings, telemetry: Telemetry)

  datatype MetricsRegistry = NoopMetricsRegistry | MetricsRegistry(telemetry: Telemetry)

  function GetMetricsRegistryOf(factory: MetricsRegistryFactory): MetricsRegistry {
    match factory
    case NoopMetricsRegistryFactory => NoopMetricsRegistry
    case MetricsRegistryFactory(_, telemetry) => MetricsRegistry(telemetry)
  }

  datatype IOException = IOException(message: string)

  /** A resource whose close() doClose calls. */
  datatype Closeable = MetricsRegistryResource(registry: MetricsRegistry) | TracerResource(tracer: Tracer)

  class TelemetryService {
    var tracerFactory: TracerFactory
    var metricsRegistryFactory: MetricsRegistryFactory

    /**
     * The constructor and init. telemetryFeatureEnabled is the TELEMETRY feature
     * flag; telemetry is what the TelemetryModule built from the installed
     * plugins yields, and initialTracer the tracer a real tracer factory over
     * it starts with.
     */
    constructor (telemetryFeatureEnabled: bool, settings: TelemetrySettings, telemetry: Telemetry, initialTracer: Tracer)
      ensures fresh(tracerFactory)
      ensures tracerFactory.kind.RealTracerFactory? <==> telemetryFeatureEnabled && settings.tracingFeatureEnabled
      ensures tracerFactory.kind.RealTracerFactory? ==>
        tracerFactory.kind == RealTracerFactory(settings, telemetry) && tracerFactory.GetTracer() == initialTracer
      ensures metricsRegistryFactory.MetricsRegistryFactory? <==> telemetryFeatureEnabled && settings.metricsFeatureEnabled
      ensures metricsRegistryFactory.MetricsRegistryFactory? ==> metricsRegistryFactory == MetricsRegistryFactory(settings, telemetry)
    {
      var tracers := new TracerFactory.Noop();
      var metrics := NoopMetricsRegistryFactory;
      if telemetryFeatureEnabled {
        if settings.tracingFeatureEnabled || settings.metricsFeatureEnabled {
          if settings.tracingFeatureEnabled {
            tracers := new TracerFactory(settings, telemetry, initialTracer);
          }
          if settings.metricsFeatureEnabled {
            metrics := MetricsRegistryFactory(settings, telemetry);
          }
        }
      }
      tracerFactory := tracers;
      metricsRegistryFactory := metrics;
    }

    /** The tracer of the selected factory: the no-op tracer unless tracing was selected. */
    function GetTracer(): (tracer: Tracer)
      reads this, tracerFactory
      ensures tracerFactory.kind.NoopTracerFactory? ==> tracer == NoopTracer
      ensures tracerFactory.kind.RealTracerFactory? ==> tracer == tracerFactory.currentTracer
    {
      tracerFactory.GetTracer()
    }

    /** The registry of the selected factory: the no-op registry unless metrics were selected. */
    function GetMetricsRegistry(): (registry: MetricsRegistry)
      reads this
      ensures registry == NoopMetricsRegistry <==> metricsRegistryFactory == NoopMetricsRegistryFactory
      ensures registry.MetricsRegistry? ==> registry.telemetry == metricsRegistryFactory.telemetry
    {
      GetMetricsRegistryOf(metricsRegistryFactory)
    }

    method DoStart()
      ensures unchanged(this)
    {
    }

    method DoStop()
      ensures unchanged(this)
    {
    }

    /**
     * doClose: closes the metrics registry, then the tracer, returning the
     * resources closed in order. Whether each close() throws is decided by code
     * that is not part of this model and is given as a parameter; an exception
     * from the registry propagates before the tracer is closed.
     */
    method DoClose(registryClose: Outcome<IOException>, tracerClose: Outcome<IOException>)
      returns (closed: seq<Closeable>, outcome: Outcome<IOException>)
      ensures |closed| >= 1 && closed[0] == MetricsRegistryResource(GetMetricsRegistry())
      ensures registryClose.Fail? ==> closed == [MetricsRegistryResource(GetMetricsRegistry())] && outcome == registryClose
      ensures registryClose.Pass? ==>
        closed == [MetricsRegistryResource(GetMetricsRegistry()), TracerResource(GetTracer())] && outcome == tracerClose
    {
      closed := [MetricsRegistryResource(GetMetricsRegistry())];
      if registryClose.Fail? {
        return closed, registryClose;
      }
      closed := closed + [TracerResource(GetTracer())];
      outcome := tracerClose;
    }
  }

  /** With the flag off, or with neither tracing nor metrics enabled, both factories stay no-op. */
  method DisabledTelemetryIsNoop(telemetryFeatureEnabled: bool, settings: TelemetrySettings, telemetry: Telemetry, initialTracer: Tracer)
    returns (tracer: Tracer, registry: MetricsRegistry)
    requires !telemetryFeatureEnabled || (!settings.tracingFeatureEnabled && !settings.metricsFeatureEnabled)
    ensures tracer == NoopTracer && registry == NoopMetricsRegistry
  {
    var service := new TelemetryService(telemetryFeatureEnabled, settings, telemetry, initialTracer);
    tracer := service.GetTracer();
    registry := service.GetMetricsRegistry();
  }
}
