/**
 * The search-phase listener that traces the query and fetch phases of a shard
 * search (SearchOperationListenerTracerImpl). Each pre-phase callback starts a
 * span on the process-wide instrumentation tracer and each completion
 * callback, successful or failed, ends one.
 */
module SearchListenerTracing {
  import opened Wrappers
  import opened InstrumentationSpans
  import opened InstrumentationTracing

  /** The search context handed to each callback; the listener never inspects it. */
  datatype SearchContext = SearchContext(handle: nat)

  datatype Callback =
    | PreQueryPhase | QueryPhase | FailedQueryPhase
    | PreFetchPhase | FetchPhase | FailedFetchPhase

  const QueryPhaseSpanName: string := "onQueryPhase"
  const FetchPhaseSpanName: string := "onFetchPhase"
  const PreFetchEvent: string := "Closing span because of query phase failure"
  const FailedFetchEvent: string := "Closing span because of fetch phase failure"

  /**
   * The calls each callback makes on the tracer, in order. The three-argument
   * startSpan overload is recorded with no attributes and no explicit parent.
   */
  function CallsOf(callback: Callback): seq<TracerCall> {
    match callback
    case PreQueryPhase => [StartSpan(QueryPhaseSpanName, None, None, INFO)]
    case QueryPhase => [EndSpan]
    case FailedQueryPhase => [EndSpan]
    case PreFetchPhase => [AddEvent(PreFetchEvent), StartSpan(FetchPhaseSpanName, None, None, INFO)]
    case FetchPhase => [EndSpan]
    case FailedFetchPhase => [AddEvent(FailedFetchEvent), EndSpan]
  }

  function StartCount(calls: seq<TracerCall>): nat
    decreases |calls|
  {
    if calls == [] then 0 else (if calls[0].StartSpan? then 1 else 0) + StartCount(calls[1..])
  }

  function EndCount(calls: seq<TracerCall>): nat
    decreases |calls|
  {
    if calls == [] then 0 else (if calls[0].EndSpan? then 1 else 0) + EndCount(calls[1..])
  }

  /** Spans started and not yet ended, according to a tracer's call log. */
  function OpenSpans(calls: seq<TracerCall>): int {
    StartCount(calls) - EndCount(calls)
  }

  predicate IsPrePhase(callback: Callback) {
    callback == PreQueryPhase || callback == PreFetchPhase
  }

  /** done is one of the two completion callbacks of the phase that pre opens. */
  predicate Completes(pre: Callback, done: Callback) {
    || (pre == PreQueryPhase && (done == QueryPhase || done == FailedQueryPhase))
    || (pre == PreFetchPhase && (done == FetchPhase || done == FailedFetchPhase))
  }

  /** Each pre-phase callback starts exactly one span and ends none; each completion callback ends exactly one and starts none. */
  lemma CallbackStartsOrEndsOne(callback: Callback)
    ensures StartCount(CallsOf(callback)) == (if IsPrePhase(callback) then 1 else 0)
    ensures EndCount(CallsOf(callback)) == (if IsPrePhase(callback) then 0 else 1)
  {
    var calls := CallsOf(callback);
    if |calls| == 1 {
      assert calls[1..] == [];
    } else {
      assert calls[1..][1..] == [];
      assert StartCount(calls[1..]) == (if calls[1].StartSpan? then 1 else 0);
      assert EndCount(calls[1..]) == (if calls[1].EndSpan? then 1 else 0);
    }
  }

  /** The query span is "onQueryPhase" at INFO; the fetch span "onFetchPhase" at INFO, after an unconditional event. */
  lemma PrePhaseSpans()
    ensures CallsOf(PreQueryPhase) == [StartSpan("onQueryPhase", None, None, INFO)]
    ensures CallsOf(PreFetchPhase)[0].AddEvent? && CallsOf(PreFetchPhase)[1] == StartSpan("onFetchPhase", None, None, INFO)
    ensures CallsOf(FailedFetchPhase)[0].AddEvent? && CallsOf(FailedFetchPhase)[1] == EndSpan
  {
  }

  lemma {:induction false} StartCountAppend(a: seq<TracerCall>, b: seq<TracerCall>)
    ensures StartCount(a + b) == StartCount(a) + StartCount(b)
    decreases |a|
  {
    if a != [] {
      StartCountAppend(a[1..], b);
      assert (a + b)[1..] == a[1..] + b;
    } else {
      assert a + b == b;
    }
  }

  lemma {:induction false} EndCountAppend(a: seq<TracerCall>, b: seq<TracerCall>)
    ensures EndCount(a + b) == EndCount(a) + EndCount(b)
    decreases |a|
  {
    if a != [] {
      EndCountAppend(a[1..], b);
      assert (a + b)[1..] == a[1..] + b;
    } else {
      assert a + b == b;
    }
  }

  /** The open-span count of a log grows by exactly what each appended piece opens. */
  lemma OpenSpansAppend(a: seq<TracerCall>, b: seq<TracerCall>)
    ensures OpenSpans(a + b) == OpenSpans(a) + OpenSpans(b)
  {
    StartCountAppend(a, b);
    EndCountAppend(a, b);
  }

  /** A pre-phase callback followed by either of its completions leaves the open-span count as it was. */
  lemma PhaseIsBalanced(log: seq<TracerCall>, pre: Callback, done: Callback)
    requires Completes(pre, done)
    ensures OpenSpans(log + CallsOf(pre) + CallsOf(done)) == OpenSpans(log)
  {
    OpenSpansAppend(log, CallsOf(pre));
    OpenSpansAppend(log + CallsOf(pre), CallsOf(done));
    CallbackStartsOrEndsOne(pre);
    CallbackStartsOrEndsOne(done);
  }

  class SearchOperationListenerTracerImpl {
    /** The static state behind TracerFactory.getInstance(). */
    const tracerFactory: TracerFactory

    constructor (tracerFactory: TracerFactory)
      ensures this.tracerFactory == tracerFactory
    {
      this.tracerFactory := tracerFactory;
    }

    method OnPreQueryPhase(searchContext: SearchContext)
      modifies tracerFactory.defaultTracer
      ensures tracerFactory.defaultTracer != null ==>
        tracerFactory.defaultTracer.received == old(tracerFactory.defaultTracer.received) + CallsOf(PreQueryPhase)
    {
      tracerFactory.Call(StartSpan(QueryPhaseSpanName, None, None, INFO));
    }

    method OnQueryPhase(searchContext: SearchContext, tookInNanos: int)
      modifies tracerFactory.defaultTracer
      ensures tracerFactory.defaultTracer != null ==>
        tracerFactory.defaultTracer.received == old(tracerFactory.defaultTracer.received) + CallsOf(QueryPhase)
    {
      tracerFactory.Call(EndSpan);
    }

    method OnFailedQueryPhase(searchContext: SearchContext)
      modifies tracerFactory.defaultTracer
      ensures tracerFactory.defaultTracer != null ==>
        tracerFactory.defaultTracer.received == old(tracerFactory.defaultTracer.received) + CallsOf(FailedQueryPhase)
    {
      tracerFactory.Call(EndSpan);
    }

    method OnPreFetchPhase(searchContext: SearchContext)
      modifies tracerFactory.defaultTracer
      ensures tracerFactory.defaultTracer != null ==>
        tracerFactory.defaultTracer.received == old(tracerFactory.defaultTracer.received) + CallsOf(PreFetchPhase)
    {
      tracerFactory.Call(AddEvent(PreFetchEvent));
      tracerFactory.Call(StartSpan(FetchPhaseSpanName, None, None, INFO));
    }

    method OnFetchPhase(searchContext: SearchContext, tookInNanos: int)
      modifies tracerFactory.defaultTracer
      ensures tracerFactory.defaultTracer != null ==>
        tracerFactory.defaultTracer.received == old(tracerFactory.defaultTracer.received) + CallsOf(FetchPhase)
    {
      tracerFactory.Call(EndSpan);
    }

    method OnFailedFetchPhase(searchContext: SearchContext)
      modifies tracerFactory.defaultTracer
      ensures tracerFactory.defaultTracer != null ==>
        tracerFactory.defaultTracer.received == old(tracerFactory.defaultTracer.received) + CallsOf(FailedFetchPhase)
    {
      tracerFactory.Call(AddEvent(FailedFetchEvent));
      tracerFactory.Call(EndSpan);
    }
  }
}
