/**
 * The strict span processor used by test runs to detect spans that were
 * started but never ended (StrictCheckSimpleSpanProcessor). It keeps a table
 * from span id to the stack trace captured when the span started; ending a
 * span removes its entry, and at the end of a test any entry left over is a
 * leak, reported with the filtered creation stack trace of one of them.
 */
module SpanLeakDetector {
  import opened Wrappers

  type SpanId = string

  /** One element of a captured stack trace; only the class name is inspected. */
  datatype StackFrame = StackFrame(className: string, methodName: string)

  type StackTrace = seq<StackFrame>

  /** Prefixes of the frames that belong to thread entry or to the tracing machinery. */
  const ThreadPrefix: string := "java.lang.Thread"
  const SdkPrefix: string := "io.opentelemetry.sdk."
  const InstrumentationPrefix: string := "org.opensearch.instrumentation"

  /** Java's String.startsWith. */
  predicate StartsWith(s: string, prefix: string) {
    |prefix| <= |s| && s[..|prefix|] == prefix
  }

  predicate IsInfrastructure(frame: StackFrame) {
    StartsWith(frame.className, ThreadPrefix)
    || StartsWith(frame.className, SdkPrefix)
    || StartsWith(frame.className, InstrumentationPrefix)
  }

  /** The stack trace with its leading run of infrastructure frames removed. */
  function Filtered(trace: StackTrace): StackTrace
    decreases |trace|
  {
    if trace == [] then []
    else if IsInfrastructure(trace[0]) then Filtered(trace[1..])
    else trace
  }

  /**
   * Filtered drops exactly the longest leading run of infrastructure frames:
   * what it drops are all infrastructure frames, and the frame it stops at is not.
   */
  lemma {:induction false} FilteredStripsLongestRun(trace: StackTrace)
    ensures |Filtered(trace)| <= |trace|
    ensures Filtered(trace) == trace[|trace| - |Filtered(trace)|..]
    ensures forall i :: 0 <= i < |trace| - |Filtered(trace)| ==> IsInfrastructure(trace[i])
    ensures Filtered(trace) != [] ==> !IsInfrastructure(Filtered(trace)[0])
    decreases |trace|
  {
    if trace != [] && IsInfrastructure(trace[0]) {
      FilteredStripsLongestRun(trace[1..]);
      assert trace[1..][|trace[1..]| - |Filtered(trace[1..])|..] == trace[|trace| - |Filtered(trace)|..];
    }
  }

  /** Any cut that drops only infrastructure frames and stops at a non-infrastructure frame is Filtered's cut. */
  lemma {:induction false} FilteredUnique(trace: StackTrace, k: nat)
    requires k <= |trace|
    requires forall i :: 0 <= i < k ==> IsInfrastructure(trace[i])
    requires k < |trace| ==> !IsInfrastructure(trace[k])
    ensures Filtered(trace) == trace[k..]
    decreases k
  {
    if k > 0 {
      FilteredUnique(trace[1..], k - 1);
      assert trace[1..][k - 1..] == trace[k..];
    }
  }

  /** Filtering an already filtered trace changes nothing. */
  lemma FilteredIdempotent(trace: StackTrace)
    ensures Filtered(Filtered(trace)) == Filtered(trace)
  {
    FilteredStripsLongestRun(trace);
  }

  /** Operations on the table, as performed by onStart and onEnd. */
  function Started(table: map<SpanId, StackTrace>, id: SpanId, trace: StackTrace): map<SpanId, StackTrace> {
    table[id := trace]
  }

  function Ended(table: map<SpanId, StackTrace>, id: SpanId): map<SpanId, StackTrace> {
    table - {id}
  }

  /** The table after the spans in entries start, in order. */
  function StartAll(table: map<SpanId, StackTrace>, entries: seq<(SpanId, StackTrace)>): map<SpanId, StackTrace>
    decreases |entries|
  {
    if entries == [] then table
    else StartAll(Started(table, entries[0].0, entries[0].1), entries[1..])
  }

  /** The table after the spans in ids end, in order. */
  function EndAll(table: map<SpanId, StackTrace>, ids: seq<SpanId>): map<SpanId, StackTrace>
    decreases |ids|
  {
    if ids == [] then table
    else EndAll(Ended(table, ids[0]), ids[1..])
  }

  function IdsOf(entries: seq<(SpanId, StackTrace)>): set<SpanId> {
    set e | e in entries :: e.0
  }

  /** Starting spans adds their ids and leaves every other entry as it was. */
  lemma {:induction false} StartAllAdds(table: map<SpanId, StackTrace>, entries: seq<(SpanId, StackTrace)>)
    ensures StartAll(table, entries).Keys == table.Keys + IdsOf(entries)
    ensures forall id :: id in table && id !in IdsOf(entries) ==> StartAll(table, entries)[id] == table[id]
    decreases |entries|
  {
    if entries != [] {
      StartAllAdds(Started(table, entries[0].0, entries[0].1), entries[1..]);
      assert IdsOf(entries) == {entries[0].0} + IdsOf(entries[1..]) by {
        assert entries == [entries[0]] + entries[1..];
      }
    }
  }

  /** Ending spans, in any order and even more than once, removes exactly their ids. */
  lemma {:induction false} EndAllRemoves(table: map<SpanId, StackTrace>, ids: seq<SpanId>)
    ensures EndAll(table, ids) == table - set id | id in ids
    decreases |ids|
  {
    if ids != [] {
      EndAllRemoves(Ended(table, ids[0]), ids[1..]);
      assert (set id | id in ids) == {ids[0]} + set id | id in ids[1..] by {
        assert ids == [ids[0]] + ids[1..];
      }
    }
  }

  /**
   * Starting spans with ids new to the table and then ending all of them, in
   * any order, returns the table to its prior state; an empty table stays empty.
   */
  lemma StartThenEndRestores(table: map<SpanId, StackTrace>, entries: seq<(SpanId, StackTrace)>, ends: seq<SpanId>)
    requires IdsOf(entries) !! table.Keys
    requires (set id | id in ends) == IdsOf(entries)
    ensures EndAll(StartAll(table, entries), ends) == table
  {
    StartAllAdds(table, entries);
    EndAllRemoves(StartAll(table, entries), ends);
  }

  /** Starting N spans with distinct ids on an empty table and ending all but one leaves one leaked entry. */
  lemma OneUnendedSpanIsOneLeak(entries: seq<(SpanId, StackTrace)>, ends: seq<SpanId>, leaked: SpanId)
    requires leaked in IdsOf(entries)
    requires (set id | id in ends) == IdsOf(entries) - {leaked}
    ensures EndAll(StartAll(map[], entries), ends).Keys == {leaked}
    ensures |EndAll(StartAll(map[], entries), ends)| == 1
  {
    StartAllAdds(map[], entries);
    EndAllRemoves(StartAll(map[], entries), ends);
    var rest := EndAll(StartAll(map[], entries), ends);
    assert rest.Keys == {leaked};
    assert |rest.Keys| == 1;
  }

  /** Decimal rendering of a count, as String.format's %d writes it in a locale with ASCII digits. */
  function DecimalString(n: nat): string
    decreases n
  {
    var digit := ['0', '1', '2', '3', '4', '5', '6', '7', '8', '9'][n % 10];
    if n < 10 then [digit] else DecimalString(n / 10) + [digit]
  }

  /** The AssertionError raised for leaked spans: its message and the stack trace set on it. */
  datatype AssertionError = AssertionError(message: string, stackTrace: StackTrace)

  function LeakMessage(count: nat): string {
    " Total [" + DecimalString(count) + "] spans are not ended properly. Find below the stack trace of first un-ended span"
  }

  class StrictCheckSimpleSpanProcessor {
    /** The exporter every ended span is handed to; exporting is outside this model. */
    const spanExporter: nat
    var spanMap: map<SpanId, StackTrace>

    constructor (spanExporter: nat)
      ensures this.spanExporter == spanExporter && spanMap == map[]
    {
      this.spanExporter := spanExporter;
      spanMap := map[];
    }

    /** A span started: remember the stack trace captured at its start. */
    method OnStart(spanId: SpanId, stackTrace: StackTrace)
      modifies this
      ensures spanMap == Started(old(spanMap), spanId, stackTrace)
      ensures spanId in spanMap && spanMap[spanId] == stackTrace
      ensures forall id :: id != spanId ==> (id in spanMap <==> id in old(spanMap))
      ensures forall id :: id != spanId && id in spanMap ==> spanMap[id] == old(spanMap)[id]
    {
      spanMap := spanMap[spanId := stackTrace];
    }

    method IsStartRequired() returns (required: bool)
      ensures required
    {
      required := true;
    }

    /** A span ended: forget it; an id that is not in the table changes nothing. */
    method OnEnd(spanId: SpanId)
      modifies this
      ensures spanMap == Ended(old(spanMap), spanId)
      ensures spanId !in spanMap
      ensures spanId !in old(spanMap) ==> spanMap == old(spanMap)
      ensures forall id :: id != spanId ==> (id in spanMap <==> id in old(spanMap))
      ensures forall id :: id != spanId && id in spanMap ==> spanMap[id] == old(spanMap)[id]
    {
      spanMap := spanMap - {spanId};
    }

    method IsEndRequired() returns (required: bool)
      ensures required
    {
      required := true;
    }

    /**
     * Passes on an empty table. Otherwise fails with the number of leaked
     * spans and the filtered creation trace of one of them, and clears the table.
     */
    method EnsureAllSpansAreClosed() returns (outcome: Outcome<AssertionError>)
      modifies this
      ensures old(spanMap) == map[] ==> outcome == Pass && spanMap == old(spanMap)
      ensures old(spanMap) != map[] ==>
        && outcome.Fail?
        && outcome.error.message == LeakMessage(|old(spanMap)|)
        && (exists id :: id in old(spanMap) && outcome.error.stackTrace == Filtered(old(spanMap)[id]))
        && spanMap == map[]
    {
      if spanMap != map[] {
        var id :| id in spanMap;
        var filteredStackTrace := GetFilteredStackTrace(spanMap[id]);
        var error := AssertionError(LeakMessage(|spanMap|), filteredStackTrace);
        spanMap := map[];
        return Fail(error);
      }
      return Pass;
    }

    method Clear()
      modifies this
      ensures spanMap == map[]
    {
      spanMap := map[];
    }

    /** Drops the leading run of infrastructure frames, one frame at a time. */
    method GetFilteredStackTrace(stackTraceElements: StackTrace) returns (filtered: StackTrace)
      ensures filtered == Filtered(stackTraceElements)
    {
      var filteredElementsCount := 0;
      while filteredElementsCount < |stackTraceElements|
        invariant 0 <= filteredElementsCount <= |stackTraceElements|
        invariant Filtered(stackTraceElements[filteredElementsCount..]) == Filtered(stackTraceElements)
      {
        if IsInfrastructure(stackTraceElements[filteredElementsCount]) {
          filteredElementsCount := filteredElementsCount + 1;
        } else {
          break;
        }
      }
      filtered := stackTraceElements[filteredElementsCount..];
    }
  }
}
