/**
 * A task wrapper that runs its task inside a span (TraceableRunnable): run()
 * asks the tracer factory for its tracer at that moment, opens a scope for a
 * span named "traceableRunnable" under the parent given at construction, runs
 * the task, and closes the scope whether the task returns or throws.
 */
module TraceableRunnables {
  import opened Wrappers
  import opened TelemetryTracing

  const SpanName: string := "traceableRunnable"

  /** The wrapped task; what it does is not part of this model. */
  datatype Runnable = Runnable(handle: nat)

  /** An exception thrown by the wrapped task. */
  datatype RuntimeException = RuntimeException(message: string)

  /** What happens around a task: scopes opened on a tracer, tasks run, scopes closed. */
  datatype Event =
    | ScopeOpened(tracer: Tracer, parent: Option<Span>, spanName: string)
    | TaskRan(task: Runnable)
    | ScopeClosed(tracer: Tracer)

  /** The events of one run(), in order, whatever the task does. */
  function RunEvents(tracer: Tracer, parent: Option<Span>, task: Runnable): seq<Event> {
    [ScopeOpened(tracer, parent, SpanName), TaskRan(task), ScopeClosed(tracer)]
  }

  /** The number of scopes open after the given events. */
  function OpenScopes(events: seq<Event>): int
    decreases |events|
  {
    if events == [] then 0
    else OpenScopes(events[..|events| - 1]) + match events[|events| - 1] {
      case ScopeOpened(_, _, _) => 1
      case TaskRan(_) => 0
      case ScopeClosed(_) => -1
    }
  }

  /** Every prefix of a bracketed event sequence has at least as many opens as closes, and the whole balances. */
  predicate Bracketed(events: seq<Event>) {
    && (forall k :: 0 <= k <= |events| ==> OpenScopes(events[..k]) >= 0)
    && OpenScopes(events) == 0
  }

  lemma {:induction false} OpenScopesAppend(log: seq<Event>, more: seq<Event>)
    ensures OpenScopes(log + more) == OpenScopes(log) + OpenScopes(more)
    decreases |more|
  {
    if more != [] {
      var init := more[..|more| - 1];
      assert (log + more)[..|log + more| - 1] == log + init;
      OpenScopesAppend(log, init);
    } else {
      assert log + more == log;
    }
  }

  /**
   * One run is bracketed, runs the task exactly once, and runs it while its
   * scope is open: after the open and before the close.
   */
  lemma RunIsBracketed(tracer: Tracer, parent: Option<Span>, task: Runnable)
    ensures Bracketed(RunEvents(tracer, parent, task))
    ensures forall i :: 0 <= i < 3 && RunEvents(tracer, parent, task)[i].TaskRan? ==> i == 1
    ensures OpenScopes(RunEvents(tracer, parent, task)[..2]) == 1
  {
    var events := RunEvents(tracer, parent, task);
    assert events[..1][..0] == [];
    assert OpenScopes(events[..1]) == 1;
    assert events[..2][..1] == events[..1];
    assert OpenScopes(events[..2]) == 1;
    assert events[..3] == events;
    assert events[..3][..2] == events[..2];
    assert OpenScopes(events) == 0;
    forall k | 0 <= k <= |events| ensures OpenScopes(events[..k]) >= 0 {
      assert k == 0 ==> events[..k] == [];
    }
  }

  /** Appending a run to any log leaves the number of open scopes as it was. */
  lemma RunLeavesOpenScopes(log: seq<Event>, tracer: Tracer, parent: Option<Span>, task: Runnable)
    ensures OpenScopes(log + RunEvents(tracer, parent, task)) == OpenScopes(log)
  {
    RunIsBracketed(tracer, parent, task);
    OpenScopesAppend(log, RunEvents(tracer, parent, task));
  }

  /** The record of events, standing for the tracer's and the task's observable effects. */
  class EventLog {
    var events: seq<Event>

    constructor ()
      ensures events == []
    {
      events := [];
    }

    method Append(event: Event)
      modifies this
      ensures events == old(events) + [event]
    {
      events := events + [event];
    }
  }

  class TraceableRunnable {
    const runnable: Runnable
    const parent: Option<Span>
    const tracerFactory: TracerFactory

    /** Stores its three arguments and nothing else: no tracer is fetched here. */
    constructor (tracerFactory: TracerFactory, parent: Option<Span>, runnable: Runnable)
      ensures this.tracerFactory == tracerFactory && this.parent == parent && this.runnable == runnable
    {
      this.runnable := runnable;
      this.parent := parent;
      this.tracerFactory := tracerFactory;
    }

    /**
     * run(): the tracer is the factory's at the time of the call. Whether the
     * task throws is the parameter taskOutcome, and whether closing the scope
     * throws is closeOutcome. As in try-with-resources, the scope is closed in
     * either case; the task's exception wins, and a close exception propagates
     * only when the task returned normally.
     */
    method Run(log: EventLog, taskOutcome: Outcome<RuntimeException>, closeOutcome: Outcome<RuntimeException>)
      returns (outcome: Outcome<RuntimeException>)
      modifies log
      ensures log.events == old(log.events) + RunEvents(tracerFactory.GetTracer(), parent, runnable)
      ensures taskOutcome.Fail? ==> outcome == taskOutcome
      ensures taskOutcome.Pass? ==> outcome == closeOutcome
      ensures outcome.Pass? <==> taskOutcome.Pass? && closeOutcome.Pass?
    {
      var tracer := tracerFactory.GetTracer();
      log.Append(ScopeOpened(tracer, parent, SpanName));
      log.Append(TaskRan(runnable));
      log.Append(ScopeClosed(tracer));
      if taskOutcome.Fail? {
        outcome := taskOutcome;
      } else {
        outcome := closeOutcome;
      }
    }
  }
}
