/**
 * The no-op tracer of the telemetry library (NoopTracer): a single shared
 * instance whose every start returns the shared no-op scope, which has no
 * current span, and whose close does nothing.
 */
module NoopTracing {
  import opened Wrappers
  import opened TelemetryTracing

  /** The constructor is private: INSTANCE is the only no-op tracer. */
  const INSTANCE: Tracer := NoopTracer

  function StartSpan(spanName: string): (scope: SpanScope)
    ensures scope == NO_OP && scope.NoopSpanScope?
  {
    NO_OP
  }

  /** The parent is ignored: a child scope is the same shared scope as a root scope. */
  function StartSpanWithParent(parentSpan: Option<Span>, spanName: string): (scope: SpanScope)
    ensures scope == StartSpan(spanName) == NO_OP
  {
    NO_OP
  }

  function GetCurrentSpan(): (span: Option<Span>)
    ensures span.None?
  {
    None
  }

  /** A call made on the no-op tracer, and its answer. */
  datatype Call =
    | Start(spanName: string)
    | StartWithParent(parentSpan: Option<Span>, spanName: string)
    | CurrentSpan
    | Close

  datatype Answer = Scope(scope: SpanScope) | CurrentSpanIs(span: Option<Span>) | Closed

  function Respond(call: Call): Answer {
    match call
    case Start(name) => Scope(StartSpan(name))
    case StartWithParent(parent, name) => Scope(StartSpanWithParent(parent, name))
    case CurrentSpan => CurrentSpanIs(GetCurrentSpan())
    case Close => Closed
  }

  /** The answers to a sequence of calls; the tracer keeps no state between them. */
  function Replay(calls: seq<Call>): (answers: seq<Answer>)
    ensures |answers| == |calls|
    decreases |calls|
  {
    if calls == [] then [] else [Respond(calls[0])] + Replay(calls[1..])
  }

  /**
   * However many scopes were opened, with or without a parent, and however
   * often close was called before, every start yields NO_OP and getCurrentSpan
   * is null.
   */
  lemma {:induction false} ReplayIsNoop(calls: seq<Call>)
    ensures forall i :: 0 <= i < |calls| && (calls[i].Start? || calls[i].StartWithParent?) ==>
      Replay(calls)[i] == Scope(NO_OP)
    ensures forall i :: 0 <= i < |calls| && calls[i].CurrentSpan? ==> Replay(calls)[i] == CurrentSpanIs(None)
    ensures forall i :: 0 <= i < |calls| && calls[i].Close? ==> Replay(calls)[i] == Closed
    decreases |calls|
  {
    if calls != [] {
      ReplayIsNoop(calls[1..]);
      assert forall i :: 1 <= i < |calls| ==> Replay(calls)[i] == Replay(calls[1..])[i - 1];
    }
  }
}
