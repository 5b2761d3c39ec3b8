/**
 * The process-wide OpenTelemetry SDK holder (OTelMain): the SDK is built the
 * first time it is asked for, with either the default batch processor over an
 * OTLP gRPC exporter or a span processor supplied by the caller, and is never
 * replaced afterwards.
 */
module OpenTelemetryBootstrap {
  import opened Wrappers

  /** The exporter the default processor sends to, with its timeout in seconds. */
  datatype SpanExporterConfig = OtlpGrpcSpanExporter(timeoutSeconds: nat)

  /** The span processor the SDK's tracer provider is built with; a supplied one is an opaque handle. */
  datatype SpanProcessor = BatchSpanProcessor(exporter: SpanExporterConfig) | SuppliedSpanProcessor(handle: nat)

  const ServiceName: string := "OpenSearch-Search"

  /** The processor initialize() builds when no processor is given. */
  const DefaultSpanProcessor: SpanProcessor := BatchSpanProcessor(OtlpGrpcSpanExporter(2))

  datatype NullPointerException = NullPointerException

  /** An OpenTelemetrySdk instance; what it does with spans is not part of this model. */
  class OpenTelemetrySdk {
    const spanProcessor: SpanProcessor
    const serviceName: string
    var closed: bool

    constructor (spanProcessor: SpanProcessor)
      ensures this.spanProcessor == spanProcessor && serviceName == ServiceName && !closed
    {
      this.spanProcessor := spanProcessor;
      serviceName := ServiceName;
      closed := false;
    }

    method Close()
      modifies this
      ensures closed
    {
      closed := true;
    }
  }

  /** The static state of OTelMain. */
  class OTelMain {
    var openTelemetry: OpenTelemetrySdk?

    constructor ()
      ensures openTelemetry == null
    {
      openTelemetry := null;
    }

    /** initialize(): builds the default SDK only when none is stored. */
    method Initialize()
      modifies this
      ensures old(openTelemetry) != null ==> openTelemetry == old(openTelemetry)
      ensures old(openTelemetry) == null ==>
        && openTelemetry != null && fresh(openTelemetry)
        && openTelemetry.spanProcessor == DefaultSpanProcessor && !openTelemetry.closed
    {
      if openTelemetry == null {
        openTelemetry := new OpenTelemetrySdk(DefaultSpanProcessor);
      }
    }

    /** initialize(spanProcessor): the processor takes effect only if no SDK is stored yet. */
    method InitializeWith(spanProcessor: SpanProcessor)
      modifies this
      ensures old(openTelemetry) != null ==> openTelemetry == old(openTelemetry)
      ensures old(openTelemetry) == null ==>
        && openTelemetry != null && fresh(openTelemetry)
        && openTelemetry.spanProcessor == spanProcessor && !openTelemetry.closed
    {
      if openTelemetry == null {
        openTelemetry := new OpenTelemetrySdk(spanProcessor);
      }
    }

    /** getOpenTelemetry(): never null; initialises lazily and otherwise returns the stored SDK. */
    method GetOpenTelemetry() returns (sdk: OpenTelemetrySdk)
      modifies this
      ensures sdk == openTelemetry
      ensures old(openTelemetry) != null ==> sdk == old(openTelemetry)
      ensures old(openTelemetry) == null ==> fresh(sdk) && sdk.spanProcessor == DefaultSpanProcessor && !sdk.closed
    {
      if openTelemetry == null {
        Initialize();
      }
      sdk := openTelemetry;
    }

    /** shutdown(): closes the stored SDK, failing when there is none; the reference is kept. */
    method Shutdown() returns (outcome: Outcome<NullPointerException>)
      modifies openTelemetry
      ensures openTelemetry == null ==> outcome == Fail(NullPointerException)
      ensures openTelemetry != null ==> outcome == Pass && openTelemetry.closed
    {
      if openTelemetry == null {
        return Fail(NullPointerException);
      }
      openTelemetry.Close();
      return Pass;
    }
  }

  /**
   * First initialisation wins: after a first initialisation, neither a shutdown
   * nor either overload nor getOpenTelemetry replaces the SDK; the stored SDK
   * is the first one, now closed, whatever processor came later.
   */
  method FirstInitializationWins(oTelMain: OTelMain, processor: SpanProcessor, later: SpanProcessor)
    returns (first: OpenTelemetrySdk)
    requires oTelMain.openTelemetry == null
    modifies oTelMain
    ensures fresh(first)
    ensures oTelMain.openTelemetry == first && first.spanProcessor == processor && first.closed
  {
    oTelMain.InitializeWith(processor);
    first := oTelMain.openTelemetry;
    var shutdown := oTelMain.Shutdown();
    oTelMain.InitializeWith(later);
    oTelMain.Initialize();
    var again := oTelMain.GetOpenTelemetry();
  }
}
