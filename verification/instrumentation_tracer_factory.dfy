/**
 * The process-wide tracer of the instrumentation layer (TracerFactory): the
 * default tracer once one has been installed, the shared no-op tracer before.
 * Every call made on the no-op tracer is dropped; the default tracer, whose
 * implementation is not part of this model, is represented by the calls it
 * receives.
 */
module InstrumentationTracing {
  import opened Wrappers
  import opened InstrumentationSpans
  import opened OpenTelemetryBootstrap

  /** An attribute value (a Java Object), carried by its textual form. */
  datatype AttributeValue = AttributeValue(text: string)

  /** The void methods of the instrumentation Tracer interface, as calls. */
  datatype TracerCall =
    | StartSpan(spanName: string, attributes: Option<map<string, AttributeValue>>, parentSpan: Option<Span>, level: Level)
    | EndSpan
    | AddAttribute(key: string, value: AttributeValue)
    | AddEvent(event: string)
    | SetCurrentSpanInContext(span: Span)

  const InstrumentationName: string := "instrumentation-library-name"
  const InstrumentationVersion: string := "1.0.0"

  /** A DefaultTracer over an SDK's tracer, and the calls it has received so far. */
  class DefaultTracer {
    const openTelemetry: OpenTelemetrySdk
    const instrumentationName: string
    const instrumentationVersion: string
    var received: seq<TracerCall>

    constructor (openTelemetry: OpenTelemetrySdk, instrumentationName: string, instrumentationVersion: string)
      ensures this.openTelemetry == openTelemetry
      ensures this.instrumentationName == instrumentationName && this.instrumentationVersion == instrumentationVersion
      ensures received == []
    {
      this.openTelemetry := openTelemetry;
      this.instrumentationName := instrumentationName;
      this.instrumentationVersion := instrumentationVersion;
      received := [];
    }
  }

  /** What getInstance() returns: the shared no-op tracer or the installed default tracer. */
  datatype Tracer = NoopTracer | Default(tracer: DefaultTracer)

  /** The static state of TracerFactory. */
  class TracerFactory {
    var defaultTracer: DefaultTracer?

    constructor ()
      ensures defaultTracer == null
    {
      defaultTracer := null;
    }

    /**
     * initializeTracer: installs a new default tracer over the (lazily built)
     * SDK. A second call replaces the first tracer; it is not rejected.
     */
    method InitializeTracer(oTelMain: OTelMain)
      modifies this, oTelMain
      ensures defaultTracer != null && fresh(defaultTracer) && defaultTracer.received == []
      ensures defaultTracer.openTelemetry == oTelMain.openTelemetry
      ensures defaultTracer.instrumentationName == InstrumentationName
      ensures defaultTracer.instrumentationVersion == InstrumentationVersion
      ensures old(oTelMain.openTelemetry) != null ==> oTelMain.openTelemetry == old(oTelMain.openTelemetry)
      ensures old(oTelMain.openTelemetry) == null ==>
        && oTelMain.openTelemetry != null && fresh(oTelMain.openTelemetry)
        && oTelMain.openTelemetry.spanProcessor == DefaultSpanProcessor && !oTelMain.openTelemetry.closed
    {
      var openTelemetry := oTelMain.GetOpenTelemetry();
      defaultTracer := new DefaultTracer(openTelemetry, InstrumentationName, InstrumentationVersion);
    }

    /** getInstance: the default tracer if one is installed, else the no-op tracer. */
    function GetInstance(): (tracer: Tracer)
      reads this
      ensures tracer == NoopTracer <==> defaultTracer == null
      ensures tracer.Default? ==> tracer.tracer == defaultTracer
    {
      if defaultTracer != null then Default(defaultTracer) else NoopTracer
    }

    /**
     * One of startSpan, endSpan, addAttribute, addEvent or setCurrentSpanInContext
     * called on getInstance(): the default tracer receives it; the no-op tracer
     * changes nothing.
     */
    method Call(call: TracerCall)
      modifies defaultTracer
      ensures defaultTracer != null ==> defaultTracer.received == old(defaultTracer.received) + [call]
    {
      var tracer := GetInstance();
      match tracer
      case NoopTracer =>
      case Default(t) => t.received := t.received + [call];
    }

    /**
     * getCurrentSpan called on getInstance(): null from the no-op tracer,
     * whatever was called before; the default tracer's answer, computed by
     * code that is not part of this model, is the parameter defaultAnswer.
     */
    method GetCurrentSpan(defaultAnswer: Option<Span>) returns (span: Option<Span>)
      ensures defaultTracer == null ==> span == None
      ensures defaultTracer != null ==> span == defaultAnswer
    {
      var tracer := GetInstance();
      match tracer
      case NoopTracer => span := None;
      case Default(_) => span := defaultAnswer;
    }
  }

  /**
   * Before initialisation getInstance() is the no-op tracer; each
   * initialisation installs a new tracer over the same SDK, and the second
   * replaces the first.
   */
  method InitializeTracerTwiceReplaces(factory: TracerFactory, oTelMain: OTelMain)
    returns (before: Tracer, first: DefaultTracer, second: DefaultTracer)
    requires factory.defaultTracer == null
    modifies factory, oTelMain
    ensures before == NoopTracer
    ensures first != second && first.openTelemetry == second.openTelemetry
    ensures factory.GetInstance() == Default(second)
  {
    before := factory.GetInstance();
    factory.InitializeTracer(oTelMain);
    first := factory.defaultTracer;
    factory.InitializeTracer(oTelMain);
    second := factory.defaultTracer;
  }
}
