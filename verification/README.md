# Tracing instrumentation of OpenSearch, modelled in Dafny

This project models the tracing code of the OpenSearch server and its telemetry libraries:

- the strict span processor that test runs use to find spans that were started but never ended;
- the case-insensitive parser for the span exporter type;
- how the process-wide tracer and OpenTelemetry SDK are selected and initialised;
- the telemetry service's choice between real and no-op tracer and metrics factories;
- the start/end pairing in the search-phase listener and in the traceable runnable;
- the no-op tracer, the no-op span and the JUnit rule that lets a test skip the leak check.

Each Java file is one Dafny module:

| module | file | Java source |
|---|---|---|
| `SpanLeakDetector` | span_leak_detector.dfy | StrictCheckSimpleSpanProcessor |
| `SpanExporterTypes` | span_exporter_type.dfy | SpanExporterType |
| `InstrumentationSpans` | instrumentation_spans.dfy | NoopSpan |
| `OpenTelemetryBootstrap` | otel_main.dfy | OTelMain |
| `InstrumentationTracing` | instrumentation_tracer_factory.dfy | instrumentation TracerFactory |
| `SearchListenerTracing` | search_listener_tracer.dfy | SearchOperationListenerTracerImpl |
| `TelemetryTracing` | telemetry_tracing.dfy | shared API types of the telemetry library |
| `NoopTracing` | noop_tracer.dfy | NoopTracer |
| `TelemetryServices` | telemetry_service.dfy | TelemetryService |
| `TraceableRunnables` | traceable_runnable.dfy | TraceableRunnable |
| `TestRules` | ignore_strict_validation_rule.dfy | IgnoreTracingStrictValidationRule |

`Wrappers` (wrappers.dfy) holds `Option` (a nullable reference), `Result` (a call that returns or throws) and `Outcome` (a void call that returns or throws).

Objects whose fields the Java code assigns are Dafny classes, and their methods state the new state:

- the leak detector's span table is a `map` field;
- the static fields of `OTelMain` and of the instrumentation `TracerFactory` are fields of one object that stands for the static state;
- the flag of the test rule is a `bool` field;
- `TelemetryService` has its two factory fields.

Pure lookups are functions, with lemmas about them:

- the stack-trace filter, specified by the function `Filtered`;
- the exporter-type parser;
- the calls each search callback makes;
- the no-op tracer's answers.

The instrumentation `DefaultTracer` is not part of this model. It stands here as an object that records the calls it receives. The open-span count, started minus ended, is computed over that record.

Where the code and the design intent differ, the model follows the code:

- Late or double tracer initialisation was meant to fail fast. `TracerFactory.initializeTracer` replaces the installed tracer instead, because its guard is commented out (TracerFactory.java:65-69). `InstrumentationTracing.TracerFactory.InitializeTracer` replaces too.
- `OTelMain.shutdown` before any initialisation dereferences null. `Shutdown` returns `Fail(NullPointerException)` in that case.

## Model

| member | source | states |
|---|---|---|
| SpanLeakDetector.StrictCheckSimpleSpanProcessor.constructor | server/src/main/java/org/opensearch/instrumentation/span/exporter/StrictCheckSimpleSpanProcessor.java:38-42 | a new processor keeps its exporter and starts with an empty span table |
| SpanLeakDetector.StrictCheckSimpleSpanProcessor.OnStart | server/src/main/java/org/opensearch/instrumentation/span/exporter/StrictCheckSimpleSpanProcessor.java:45-48 | the span id now maps to the stack trace captured at start, overwriting an earlier entry for the same id; every other entry is unchanged |
| SpanLeakDetector.StrictCheckSimpleSpanProcessor.IsStartRequired | server/src/main/java/org/opensearch/instrumentation/span/exporter/StrictCheckSimpleSpanProcessor.java:50-53 | always true |
| SpanLeakDetector.StrictCheckSimpleSpanProcessor.OnEnd | server/src/main/java/org/opensearch/instrumentation/span/exporter/StrictCheckSimpleSpanProcessor.java:56-60 | the span id is no longer in the table and every other entry is unchanged; ending an unknown id changes nothing |
| SpanLeakDetector.StrictCheckSimpleSpanProcessor.IsEndRequired | server/src/main/java/org/opensearch/instrumentation/span/exporter/StrictCheckSimpleSpanProcessor.java:62-65 | always true |
| SpanLeakDetector.StrictCheckSimpleSpanProcessor.EnsureAllSpansAreClosed | server/src/main/java/org/opensearch/instrumentation/span/exporter/StrictCheckSimpleSpanProcessor.java:77-89 | an empty table passes and is unchanged; otherwise it fails with an AssertionError whose message gives the table size before clearing and whose stack trace is the filtered trace of one entry, and the table is left empty |
| SpanLeakDetector.StrictCheckSimpleSpanProcessor.Clear | server/src/main/java/org/opensearch/instrumentation/span/exporter/StrictCheckSimpleSpanProcessor.java:91-93 | the table is empty, whatever it held |
| SpanLeakDetector.StrictCheckSimpleSpanProcessor.GetFilteredStackTrace | server/src/main/java/org/opensearch/instrumentation/span/exporter/StrictCheckSimpleSpanProcessor.java:95-107 | the loop that counts leading infrastructure frames returns exactly `Filtered` of its input |
| SpanLeakDetector.FilteredStripsLongestRun | server/src/main/java/org/opensearch/instrumentation/span/exporter/StrictCheckSimpleSpanProcessor.java:97-106 | the filtered trace is a suffix of the input; every dropped frame's class starts with "java.lang.Thread", "io.opentelemetry.sdk." or "org.opensearch.instrumentation"; the first kept frame matches none of them |
| SpanLeakDetector.FilteredUnique | server/src/main/java/org/opensearch/instrumentation/span/exporter/StrictCheckSimpleSpanProcessor.java:97-106 | any cut that drops only infrastructure frames and stops at a non-infrastructure frame is the filter's cut, so the filter removes exactly the longest leading infrastructure run |
| SpanLeakDetector.FilteredIdempotent | server/src/main/java/org/opensearch/instrumentation/span/exporter/StrictCheckSimpleSpanProcessor.java:95-107 | filtering twice gives the same trace as filtering once |
| SpanLeakDetector.StartAllAdds | server/src/main/java/org/opensearch/instrumentation/span/exporter/StrictCheckSimpleSpanProcessor.java:45-48 | a series of span starts adds exactly the started ids and leaves the entries of other ids unchanged |
| SpanLeakDetector.EndAllRemoves | server/src/main/java/org/opensearch/instrumentation/span/exporter/StrictCheckSimpleSpanProcessor.java:56-57 | a series of span ends, in any order and with repeats, removes exactly the ended ids |
| SpanLeakDetector.StartThenEndRestores | server/src/main/java/org/opensearch/instrumentation/span/exporter/StrictCheckSimpleSpanProcessor.java:47-57 | starting spans with new ids and then ending all of them returns the table to its prior state, so an empty table stays empty |
| SpanLeakDetector.OneUnendedSpanIsOneLeak | server/src/main/java/org/opensearch/instrumentation/span/exporter/StrictCheckSimpleSpanProcessor.java:47-83 | starting N spans on an empty table and ending all but one leaves exactly that one entry, so the reported count is 1 |
| SpanExporterTypes.FindIgnoringCase | plugins/telemetry-otel/src/main/java/org/opensearch/telemetry/tracing/exporter/SpanExporterType.java:27-31 | the search over the constants returns a candidate whose name equals the input ignoring case, and finds none exactly when no candidate matches |
| SpanExporterTypes.FromString | plugins/telemetry-otel/src/main/java/org/opensearch/telemetry/tracing/exporter/SpanExporterType.java:26-34 | returns a constant only if its name equals the input ignoring case; throws IllegalArgumentException exactly when no constant matches, with a message naming the input and listing the constants |
| SpanExporterTypes.NamesDistinctIgnoringCase | plugins/telemetry-otel/src/main/java/org/opensearch/telemetry/tracing/exporter/SpanExporterType.java:19-31 | at most one constant matches any input, so the search order does not affect the result |
| SpanExporterTypes.FromStringMatchesIgnoringCase | plugins/telemetry-otel/src/main/java/org/opensearch/telemetry/tracing/exporter/SpanExporterType.java:26-31 | fromString returns a constant if and only if that constant's name equals the input ignoring case |
| SpanExporterTypes.FromStringRejectsUnknown | plugins/telemetry-otel/src/main/java/org/opensearch/telemetry/tracing/exporter/SpanExporterType.java:32-34 | fromString throws IllegalArgumentException exactly when no constant matches; the message names the input and lists [LOGGING, OLTP_GRPC] |
| SpanExporterTypes.FromStringOfName | plugins/telemetry-otel/src/main/java/org/opensearch/telemetry/tracing/exporter/SpanExporterType.java:19-29 | round trip: fromString(t.name()) == t for every constant |
| SpanExporterTypes.FromStringAnyCase | plugins/telemetry-otel/src/main/java/org/opensearch/telemetry/tracing/exporter/SpanExporterType.java:28 | any spelling that upper-cases to a constant's name selects that constant |
| SpanExporterTypes.FromStringExamples | plugins/telemetry-otel/src/main/java/org/opensearch/telemetry/tracing/exporter/SpanExporterType.java:26-34 | "logging", "Logging" and "LOGGING" give LOGGING, "oltp_grpc" gives OLTP_GRPC, and "abc" is rejected |
| InstrumentationSpans.NoopSpanGetters | server/src/main/java/org/opensearch/instrumentation/NoopSpan.java:16-35 | getSpanName, getParentSpan (None for a root) and getLevel return the constructor's arguments |
| InstrumentationSpans.GetParentSpan | server/src/main/java/org/opensearch/instrumentation/NoopSpan.java:22-25 | returns the span's parent (None for a root); the contract is the field access itself, and the constructor round trip is stated by NoopSpanGetters |
| InstrumentationSpans.GetLevel | server/src/main/java/org/opensearch/instrumentation/NoopSpan.java:27-30 | returns the span's level; the contract is the field access itself, and the constructor round trip is stated by NoopSpanGetters |
| InstrumentationSpans.GetSpanName | server/src/main/java/org/opensearch/instrumentation/NoopSpan.java:32-35 | returns the span's name; the contract is the field access itself, and the constructor round trip is stated by NoopSpanGetters |
| OpenTelemetryBootstrap.OTelMain.constructor | server/src/main/java/org/opensearch/instrumentation/OTelMain.java:29 | no SDK is stored at first |
| OpenTelemetryBootstrap.OTelMain.Initialize | server/src/main/java/org/opensearch/instrumentation/OTelMain.java:37-51 | builds and stores a new SDK with the batch OTLP gRPC processor (2 s timeout) only when none is stored; otherwise the stored SDK is kept |
| OpenTelemetryBootstrap.OTelMain.InitializeWith | server/src/main/java/org/opensearch/instrumentation/OTelMain.java:53-64 | the supplied processor takes effect only on first initialisation; afterwards it is ignored |
| OpenTelemetryBootstrap.OTelMain.GetOpenTelemetry | server/src/main/java/org/opensearch/instrumentation/OTelMain.java:66-71 | never null: initialises lazily, and returns the already stored SDK when there is one, so repeated calls return the same instance |
| OpenTelemetryBootstrap.OTelMain.Shutdown | server/src/main/java/org/opensearch/instrumentation/OTelMain.java:73-75 | fails with a null dereference exactly when no SDK is stored; otherwise closes the SDK and keeps the reference |
| OpenTelemetryBootstrap.FirstInitializationWins | server/src/main/java/org/opensearch/instrumentation/OTelMain.java:37-75 | after a first initialisation, a shutdown, a later processor, a default initialisation and a getOpenTelemetry still leave the first SDK object stored: it is returned, carries the first processor and is the one that was closed, so no later SDK replaced it |
| InstrumentationTracing.DefaultTracer.constructor | server/src/main/java/org/opensearch/instrumentation/TracerFactory.java:63-66 | a new default tracer is bound to the SDK's tracer "instrumentation-library-name" version "1.0.0" and has received no calls |
| InstrumentationTracing.TracerFactory.constructor | server/src/main/java/org/opensearch/instrumentation/TracerFactory.java:24 | no default tracer is installed at first |
| InstrumentationTracing.TracerFactory.InitializeTracer | server/src/main/java/org/opensearch/instrumentation/TracerFactory.java:62-70 | installs a new default tracer over the SDK stored in OTelMain, replacing any earlier one without error; when none was stored, that SDK is freshly built over the default OTLP gRPC batch processor and is open |
| InstrumentationTracing.TracerFactory.GetInstance | server/src/main/java/org/opensearch/instrumentation/TracerFactory.java:72-74 | the installed default tracer if there is one, and the no-op tracer exactly when none is installed; the contract is the method's own conditional, and what it returns before and after initialisation is stated by InitializeTracerTwiceReplaces |
| InstrumentationTracing.TracerFactory.Call | server/src/main/java/org/opensearch/instrumentation/TracerFactory.java:27-50 | startSpan, endSpan, addAttribute, addEvent and setCurrentSpanInContext reach the default tracer when one is installed; on the no-op tracer they change nothing |
| InstrumentationTracing.TracerFactory.GetCurrentSpan | server/src/main/java/org/opensearch/instrumentation/TracerFactory.java:52-55 | the no-op tracer answers null, whatever calls preceded |
| InstrumentationTracing.InitializeTracerTwiceReplaces | server/src/main/java/org/opensearch/instrumentation/TracerFactory.java:62-74 | getInstance is the no-op tracer before initialisation; the two initialisations install two distinct tracers over the same SDK, and afterwards getInstance is the second |
| SearchListenerTracing.CallbackStartsOrEndsOne | server/src/main/java/org/opensearch/index/shard/SearchOperationListenerTracerImpl.java:24-54 | each pre-phase callback starts exactly one span and ends none; each completion callback, success or failure, ends exactly one and starts none |
| SearchListenerTracing.PrePhaseSpans | server/src/main/java/org/opensearch/index/shard/SearchOperationListenerTracerImpl.java:24-54 | the query span is "onQueryPhase" at INFO; the fetch span "onFetchPhase" at INFO comes after an unconditional event; the failed fetch adds an event before ending |
| SearchListenerTracing.OpenSpansAppend | server/src/main/java/org/opensearch/index/shard/SearchOperationListenerTracerImpl.java:24-54 | the open-span count of a call log is additive over concatenation |
| SearchListenerTracing.PhaseIsBalanced | server/src/main/java/org/opensearch/index/shard/SearchOperationListenerTracerImpl.java:24-54 | a pre-phase callback followed by either of its completion callbacks leaves the open-span count unchanged |
| SearchListenerTracing.SearchOperationListenerTracerImpl.OnPreQueryPhase | server/src/main/java/org/opensearch/index/shard/SearchOperationListenerTracerImpl.java:24-26 | the installed tracer receives one start of "onQueryPhase" at INFO; the search context plays no part |
| SearchListenerTracing.SearchOperationListenerTracerImpl.OnQueryPhase | server/src/main/java/org/opensearch/index/shard/SearchOperationListenerTracerImpl.java:29-31 | the installed tracer receives one endSpan; the context and tookInNanos play no part |
| SearchListenerTracing.SearchOperationListenerTracerImpl.OnFailedQueryPhase | server/src/main/java/org/opensearch/index/shard/SearchOperationListenerTracerImpl.java:34-36 | the installed tracer receives one endSpan |
| SearchListenerTracing.SearchOperationListenerTracerImpl.OnPreFetchPhase | server/src/main/java/org/opensearch/index/shard/SearchOperationListenerTracerImpl.java:40-43 | the installed tracer receives one event and then one start of "onFetchPhase" at INFO |
| SearchListenerTracing.SearchOperationListenerTracerImpl.OnFetchPhase | server/src/main/java/org/opensearch/index/shard/SearchOperationListenerTracerImpl.java:46-48 | the installed tracer receives one endSpan |
| SearchListenerTracing.SearchOperationListenerTracerImpl.OnFailedFetchPhase | server/src/main/java/org/opensearch/index/shard/SearchOperationListenerTracerImpl.java:51-54 | the installed tracer receives one event and then one endSpan |
| NoopTracing.StartSpan | libs/telemetry/src/main/java/org/opensearch/telemetry/tracing/noop/NoopTracer.java:27-30 | always the shared NO_OP scope, whatever the name |
| NoopTracing.StartSpanWithParent | libs/telemetry/src/main/java/org/opensearch/telemetry/tracing/noop/NoopTracer.java:32-35 | the same NO_OP scope as the parentless overload, whatever the parent |
| NoopTracing.GetCurrentSpan | libs/telemetry/src/main/java/org/opensearch/telemetry/tracing/noop/NoopTracer.java:37-40 | never a span: null |
| NoopTracing.ReplayIsNoop | libs/telemetry/src/main/java/org/opensearch/telemetry/tracing/noop/NoopTracer.java:23-45 | over any sequence of calls on the single no-op tracer, both startSpan overloads return NO_OP whatever the parent, getCurrentSpan returns null, and close does nothing |
| TelemetryServices.TelemetryService.constructor | server/src/main/java/org/opensearch/telemetry/service/TelemetryService.java:39-60 | the tracer factory is real exactly when the TELEMETRY flag and tracing are on, whatever the metrics switch, and then yields the tracer it was built with; the metrics factory is real exactly when the flag and metrics are on, whatever the tracing switch |
| TelemetryServices.TelemetryService.GetTracer | server/src/main/java/org/opensearch/telemetry/service/TelemetryService.java:62-64 | the selected factory's tracer, which is the no-op tracer when the factory is the no-op one |
| TelemetryServices.TelemetryService.GetMetricsRegistry | server/src/main/java/org/opensearch/telemetry/service/TelemetryService.java:66-68 | the selected factory's registry, which is the no-op registry exactly when the factory is the no-op one |
| TelemetryServices.TelemetryService.DoStart | server/src/main/java/org/opensearch/telemetry/service/TelemetryService.java:71-72 | changes nothing |
| TelemetryServices.TelemetryService.DoStop | server/src/main/java/org/opensearch/telemetry/service/TelemetryService.java:75-76 | changes nothing |
| TelemetryServices.TelemetryService.DoClose | server/src/main/java/org/opensearch/telemetry/service/TelemetryService.java:79-82 | the metrics registry is closed first and then the tracer; an IOException from the registry propagates before the tracer is closed |
| TelemetryServices.DisabledTelemetryIsNoop | server/src/main/java/org/opensearch/telemetry/service/TelemetryService.java:39-49 | with the flag off, or with neither tracing nor metrics enabled, the service hands out the no-op tracer and the no-op registry |
| TraceableRunnables.TraceableRunnable.constructor | server/src/main/java/org/opensearch/telemetry/tracing/TraceableRunnable.java:25-29 | only stores its three arguments |
| TraceableRunnables.TraceableRunnable.Run | server/src/main/java/org/opensearch/telemetry/tracing/TraceableRunnable.java:32-36 | opens one scope for "traceableRunnable" under the stored parent on the factory's tracer of the moment, runs the task once, and closes the scope, also when the task throws; the task's exception wins, a close exception propagates only when the task returned normally, and the run succeeds exactly when both did |
| TraceableRunnables.OpenScopesAppend | server/src/main/java/org/opensearch/telemetry/tracing/TraceableRunnable.java:33-35 | the open-scope count of an event log is additive over concatenation |
| TraceableRunnables.RunIsBracketed | server/src/main/java/org/opensearch/telemetry/tracing/TraceableRunnable.java:33-35 | a run's events never close more scopes than they opened, and they balance; the task runs exactly once, while the run's scope is open |
| TraceableRunnables.RunLeavesOpenScopes | server/src/main/java/org/opensearch/telemetry/tracing/TraceableRunnable.java:33-35 | a run leaves the open-scope count of any log as it was |
| TestRules.IgnoreTracingStrictValidationRule.constructor | test/framework/src/main/java/org/opensearch/test/IgnoreTracingStrictValidationRule.java:15 | the flag is false before any test starts |
| TestRules.IgnoreTracingStrictValidationRule.Starting | test/framework/src/main/java/org/opensearch/test/IgnoreTracingStrictValidationRule.java:17-28 | afterwards the flag is true exactly when the starting test carries the IgnoreTracingStrictValidation annotation; the previous value is discarded |
| TestRules.IgnoreTracingStrictValidationRule.ShouldIgnoreTracingStrictValidation | test/framework/src/main/java/org/opensearch/test/IgnoreTracingStrictValidationRule.java:26-28 | true exactly when a test has started and the most recently started one carries the IgnoreTracingStrictValidation annotation |
| TestRules.UnannotatedAfterAnnotated | test/framework/src/main/java/org/opensearch/test/IgnoreTracingStrictValidationRule.java:17-28 | an unannotated test resets the flag to false right after an annotated test set it |

## Left out

- SpanLeakDetector.StrictCheckSimpleSpanProcessor.EnsureAllSpansAreClosed: does not model the one-second `Thread.sleep` or its InterruptedException. It also does not model the concurrent map: in Java, another thread ending spans between the emptiness test and the iteration can make the call return normally without clearing. The model is sequential. The leaked-span count is written with ASCII digits; `String.format` uses the default locale, which may use other digits.
- Stack-trace capture: `OnStart` takes the captured trace as a parameter, and the unused thread-name read is dropped.
- Span export: `OnEnd` does not model the exporter call. `shutdown` and `forceFlush`, which only return success codes of the SDK, are not modelled.
- The `spanMap != null` test is left out, because the field is never null.
- SpanExporterTypes.FromString: only ASCII case folding is modelled. Java's `equalsIgnoreCase` also folds other characters; for example the dotless ı upper-cases to I, so Java would accept "LOGGıNG". A null name is not modelled either.
- Tracer levels: only INFO is used by the modelled code. Other levels are carried as a name, and the list of levels the Level enumeration declares is not part of this model.
- OpenTelemetryBootstrap.OTelMain.GetOpenTelemetry, OpenTelemetryBootstrap.OTelMain.Initialize and OpenTelemetryBootstrap.OTelMain.InitializeWith: the once-only initialisation, and with it "repeated getOpenTelemetry calls return the same instance", is proved for sequential callers only. In Java the null test and the assignment are an unsynchronised check-then-act on a non-volatile static field, so two overlapping first calls can each build an SDK. The second registration as the global OpenTelemetry instance then throws IllegalStateException, which the model does not capture. The `synchronized` on `TracerFactory.initializeTracer` is not modelled either; the model has no threads.
- OTelMain: the SDK's construction is reduced to the span processor it is built with. The resource merge, the W3C propagator and the global registration done by `buildAndRegisterGlobal` are not modelled.
- InstrumentationTracing.TracerFactory.GetCurrentSpan: what the default tracer answers is a parameter. The DefaultTracer implementation is not part of this model.
- InstrumentationTracing.TracerFactory.InitializeTracer: the thread pool and cluster service arguments are not modelled, because only the DefaultTracer, which is not part of this model, uses them.
- The three-argument `startSpan` overload that the search listener calls is not part of this model. Its calls are recorded with no attributes and no explicit parent.
- TelemetryServices.TelemetryService.constructor: some inputs are parameters. The TELEMETRY feature flag and the two settings switches are given directly. The telemetry chosen by TelemetryModule from the installed plugins is an opaque handle. Plugin filtering and TelemetryModule's own checks are not modelled.
- The telemetry library's TracerFactory is not part of this model. Its tracer is the field `currentTracer`. The tracer a real factory starts with is a parameter of its constructor, because the library builds it from whatever telemetry the installed plugins provide. Closing a tracer or registry is recorded, not performed, and whether `close()` throws is given as a parameter.
- TraceableRunnables.TraceableRunnable.Run: what the task does, whether it throws and whether closing the scope throws are parameters. A failing `startSpan` is not modelled, and a close exception that Java attaches to the task's exception as suppressed is dropped.
- The default tracer of the telemetry library, its span scope and the thread-context-backed context storage are not part of this model.
- OTelTracingTelemetry, the exporter factories and utilities, RemoteClusterAwareClient, TracingActionListener and the test stubs are calls into the OpenTelemetry SDK, reflection or transport code. They are not modelled.
- The metrics registry and all SDK export and flush behaviour are not modelled.
