/**
 * The span exporter selector of the OpenTelemetry plugin: an enumeration of
 * the supported exporters and a case-insensitive lookup by name that rejects
 * every name it does not know.
 */
module SpanExporterTypes {
  import opened Wrappers

  datatype SpanExporterType = LOGGING | OLTP_GRPC

  /** The constant's declared name, as Enum.name() returns it. */
  function Name(t: SpanExporterType): string {
    match t
    case LOGGING => "LOGGING"
    case OLTP_GRPC => "OLTP_GRPC"
  }

  /** values(), in declaration order. */
  const Values: seq<SpanExporterType> := [LOGGING, OLTP_GRPC]

  datatype IllegalArgumentException = IllegalArgumentException(message: string)

  /** Character.toUpperCase and Character.toLowerCase, on ASCII letters. */
  function UpperCase(c: char): char {
    if 'a' <= c <= 'z' then (c as int - 32) as char else c
  }

  function LowerCase(c: char): char {
    if 'A' <= c <= 'Z' then (c as int + 32) as char else c
  }

  /** The per-character test of String.equalsIgnoreCase. */
  predicate CharEqualsIgnoreCase(a: char, b: char) {
    a == b || UpperCase(a) == UpperCase(b) || LowerCase(UpperCase(a)) == LowerCase(UpperCase(b))
  }

  predicate EqualsIgnoreCase(a: string, b: string) {
    |a| == |b| && forall i :: 0 <= i < |a| ==> CharEqualsIgnoreCase(a[i], b[i])
  }

  /** The first of the candidates whose name equals name ignoring case. */
  function FindIgnoringCase(candidates: seq<SpanExporterType>, name: string): (r: Option<SpanExporterType>)
    ensures r.Some? ==> r.value in candidates && EqualsIgnoreCase(Name(r.value), name)
    ensures r.None? <==> forall t :: t in candidates ==> !EqualsIgnoreCase(Name(t), name)
    decreases |candidates|
  {
    if candidates == [] then None
    else if EqualsIgnoreCase(Name(candidates[0]), name) then Some(candidates[0])
    else FindIgnoringCase(candidates[1..], name)
  }

  /** Arrays.asList(values()).toString(). */
  function NamesList(ts: seq<SpanExporterType>): string {
    "[" + JoinNames(ts) + "]"
  }

  function JoinNames(ts: seq<SpanExporterType>): string
    decreases |ts|
  {
    if ts == [] then ""
    else if |ts| == 1 then Name(ts[0])
    else Name(ts[0]) + ", " + JoinNames(ts[1..])
  }

  function InvalidValueMessage(name: string): string {
    "invalid value for tracing level [" + name + "], must be in " + NamesList(Values)
  }

  /** SpanExporterType.fromString: the constant named name, ignoring case, or an IllegalArgumentException. */
  function FromString(name: string): (r: Result<SpanExporterType, IllegalArgumentException>)
    ensures r.Ok? ==> EqualsIgnoreCase(Name(r.value), name)
    ensures r.Err? <==> forall t :: t in Values ==> !EqualsIgnoreCase(Name(t), name)
    ensures r.Err? ==> r.error.message == InvalidValueMessage(name)
  {
    match FindIgnoringCase(Values, name)
    case Some(t) => Ok(t)
    case None => Err(IllegalArgumentException(InvalidValueMessage(name)))
  }

  /** No two constants' names are equal ignoring case, so the search order cannot matter. */
  lemma NamesDistinctIgnoringCase(t: SpanExporterType, u: SpanExporterType, name: string)
    requires EqualsIgnoreCase(Name(t), name) && EqualsIgnoreCase(Name(u), name)
    ensures t == u
  {
  }

  /** fromString returns exactly the constant whose name equals the input ignoring case. */
  lemma FromStringMatchesIgnoringCase(name: string, t: SpanExporterType)
    ensures FromString(name) == Ok(t) <==> EqualsIgnoreCase(Name(t), name)
  {
    var found := FindIgnoringCase(Values, name);
    if EqualsIgnoreCase(Name(t), name) {
      assert t in Values;
      NamesDistinctIgnoringCase(t, found.value, name);
    }
  }

  /** values() holds every constant. */
  lemma ValuesComplete(t: SpanExporterType)
    ensures t in Values
  {
    match t
    case LOGGING => assert Values[0] == t;
    case OLTP_GRPC => assert Values[1] == t;
  }

  lemma ValuesListed()
    ensures NamesList(Values) == "[LOGGING, OLTP_GRPC]"
  {
    assert Values[1..] == [OLTP_GRPC];
    assert JoinNames([OLTP_GRPC]) == "OLTP_GRPC";
    assert JoinNames(Values) == "LOGGING" + ", " + "OLTP_GRPC";
  }

  /** fromString fails exactly when no constant matches, naming the input and the valid values. */
  lemma FromStringRejectsUnknown(name: string)
    ensures FromString(name).Err? <==> forall t :: !EqualsIgnoreCase(Name(t), name)
    ensures FromString(name).Err? ==>
      FromString(name).error.message == "invalid value for tracing level [" + name + "], must be in " + "[LOGGING, OLTP_GRPC]"
  {
    forall t ensures t in Values {
      ValuesComplete(t);
    }
    ValuesListed();
  }

  /** Round trip: the name of a constant parses back to that constant. */
  lemma FromStringOfName(t: SpanExporterType)
    ensures FromString(Name(t)) == Ok(t)
  {
    FromStringMatchesIgnoringCase(Name(t), t);
  }

  /** Any spelling that upper-cases to a constant's name selects that constant ("logging", "Logging", "oltp_grpc"). */
  lemma FromStringAnyCase(t: SpanExporterType, name: string)
    requires |name| == |Name(t)|
    requires forall i :: 0 <= i < |name| ==> UpperCase(name[i]) == Name(t)[i]
    ensures FromString(name) == Ok(t)
  {
    assert forall i :: 0 <= i < |name| ==> UpperCase(Name(t)[i]) == Name(t)[i];
    FromStringMatchesIgnoringCase(name, t);
  }

  lemma FromStringExamples()
    ensures FromString("logging") == Ok(LOGGING)
    ensures FromString("Logging") == Ok(LOGGING)
    ensures FromString("LOGGING") == Ok(LOGGING)
    ensures FromString("oltp_grpc") == Ok(OLTP_GRPC)
    ensures FromString("abc").Err?
  {
    FromStringAnyCase(LOGGING, "logging");
    FromStringAnyCase(LOGGING, "Logging");
    FromStringOfName(LOGGING);
    FromStringAnyCase(OLTP_GRPC, "oltp_grpc");
    FromStringRejectsUnknown("abc");
  }
}
