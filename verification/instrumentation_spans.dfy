/**
 * Spans of the instrumentation layer and their no-op variant (NoopSpan): a
 * span that records only the name, parent and level it was created with.
 */
module InstrumentationSpans {
  import opened Wrappers

  /** Tracer.Level; only INFO is used by the modelled code, other levels are carried by name. */
  datatype Level = Level(name: string)

  const INFO: Level := Level("INFO")

  /**
   * NoopSpan; its three fields are final. The parent is None for a root span.
   * Other Span implementations are not part of this model.
   */
  datatype Span = NoopSpan(spanName: string, parentSpan: Option<Span>, level: Level)

  /** Each getter returns the field that, with the other two, rebuilds the span. */
  function GetParentSpan(span: Span): (parent: Option<Span>)
    ensures span == NoopSpan(span.spanName, parent, span.level)
  {
    span.parentSpan
  }

  function GetLevel(span: Span): (level: Level)
    ensures span == NoopSpan(span.spanName, span.parentSpan, level)
  {
    span.level
  }

  function GetSpanName(span: Span): (spanName: string)
    ensures span == NoopSpan(spanName, span.parentSpan, span.level)
  {
    span.spanName
  }

  /** The getters return what the constructor was given, for a root span as for a child. */
  lemma NoopSpanGetters(spanName: string, parentSpan: Option<Span>, level: Level)
    ensures GetSpanName(NoopSpan(spanName, parentSpan, level)) == spanName
    ensures GetParentSpan(NoopSpan(spanName, parentSpan, level)) == parentSpan
    ensures GetLevel(NoopSpan(spanName, parentSpan, level)) == level
  {
  }
}
