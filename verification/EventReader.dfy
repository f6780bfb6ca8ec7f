/**
A consumer of the JSON records: it parses the text and looks members up by name. Everything an event carries
comes back, so no two events that differ in meaning are ever written alike.
*/
module EventReader {
  import opened Text
  import opened Json
  import opened Events
  import opened EventJson

  datatype Scalar =
    | NullScalar
    | BoolScalar(b: bool)
    | IntScalar(i: int)
    | RealScalar(token: string)
    | TextScalar(s: string)

  datatype Reading = Reading(
    timestamp: string, level: string, logger: string, message: string, thread: string,
    location: Option<Location>, trace: Option<string>, span: Option<string>, correlation: Option<string>,
    fields: seq<(string, Scalar)>)

  function ReadNumber(token: string): Scalar {
    if token != "" && AllDigits(token) then IntScalar(DigitsValue(token))
    else if token != "" && token[0] == '-' && AllDigits(token[1..]) then IntScalar(0 - DigitsValue(token[1..]))
    else RealScalar(token)
  }

  function ReadScalar(v: Value): Option<Scalar> {
    match v
    case Null => Some(NullScalar)
    case Bool(b) => Some(BoolScalar(b))
    case Number(token) => Some(ReadNumber(token))
    case Str(s) => Some(TextScalar(s))
    case _ => None
  }

  /** The value of the first member with this name. */
  function Lookup(members: seq<Member>, key: string): Option<Value> {
    if members == [] then None
    else if members[0].key == key then Some(members[0].value)
    else Lookup(members[1..], key)
  }

  function ReadText(members: seq<Member>, key: string): Option<string> {
    var v := Lookup(members, key);
    if v.Some? && v.value.Str? then Some(v.value.s) else None
  }

  function ReadLine(members: seq<Member>): Option<uint32> {
    var v := Lookup(members, "line");
    if v.Some? && v.value.Number? then
      var n := ReadNumber(v.value.token);
      if n.IntScalar? && 0 <= n.i < 0x1_0000_0000 then Some(n.i) else None
    else None
  }

  function ReadLocation(members: seq<Member>): Option<Location> {
    var file, line, func := ReadText(members, "file"), ReadLine(members), ReadText(members, "function");
    if file.Some? && line.Some? && func.Some? then Some(Location(file.value, line.value, func.value)) else None
  }

  function ReadFields(members: seq<Member>): Option<seq<(string, Scalar)>> {
    if members == [] then Some([])
    else
      var first, rest := ReadScalar(members[0].value), ReadFields(members[1..]);
      if first.Some? && rest.Some? then Some([(members[0].key, first.value)] + rest.value) else None
  }

  function ReadFieldsMember(members: seq<Member>): Option<seq<(string, Scalar)>> {
    var v := Lookup(members, "fields");
    if v.Some? && v.value.Object? then ReadFields(v.value.members) else None
  }

  function ReadMembers(members: seq<Member>): Option<Reading> {
    var timestamp, level := ReadText(members, "@timestamp"), ReadText(members, "level");
    var logger, message := ReadText(members, "logger"), ReadText(members, "message");
    var thread, fields := ReadText(members, "thread_id"), ReadFieldsMember(members);
    if timestamp.None? || level.None? || logger.None? || message.None? || thread.None? || fields.None? then None
    else
      Some(Reading(timestamp.value, level.value, logger.value, message.value, thread.value, ReadLocation(members),
                   ReadText(members, "trace_id"), ReadText(members, "span_id"), ReadText(members, "correlation_id"),
                   fields.value))
  }

  function ReadEvent(text: string): Option<Reading> {
    var v := ParseText(text);
    if v.Some? && v.value.Object? then ReadMembers(v.value.members) else None
  }

  // What ought to come back.

  function Meaning(v: FieldValue): Scalar {
    match v
    case NullValue => NullScalar
    case BoolValue(b) => BoolScalar(b)
    case Int64Value(i) => IntScalar(i)
    case UInt64Value(u) => IntScalar(u)
    case DoubleValue(d) => if d.Finite? then ReadNumber(d.token) else NullScalar
    case StringValue(s) => TextScalar(s)
  }

  function FieldMeanings(fields: seq<Field>): seq<(string, Scalar)> {
    seq(|fields|, i requires 0 <= i < |fields| => (fields[i].key, Meaning(fields[i].value)))
  }

  function EventMeaning(event: Event): Reading {
    Reading(event.timestamp, LevelName(event.severity), event.logger, event.message, event.thread, event.location,
            event.trace, event.span, event.correlation, FieldMeanings(event.fields))
  }

  lemma {:induction false} IntegerRead(i: int)
    ensures ReadNumber(SignedDecimal(i)) == IntScalar(i)
  {
    if i < 0 {
      DecimalValue(-i);
      assert SignedDecimal(i)[0] == '-' && SignedDecimal(i)[1..] == Decimal(-i);
    } else {
      DecimalValue(i);
    }
  }

  lemma FieldRead(v: FieldValue)
    ensures ReadScalar(FieldJson(v)) == Some(Meaning(v))
  {
    match v
    case Int64Value(i) => IntegerRead(i);
    case UInt64Value(u) => IntegerRead(u);
    case _ =>
  }

  lemma {:induction false} FieldsRead(fields: seq<Field>)
    ensures ReadFields(FieldMembers(fields)) == Some(FieldMeanings(fields))
  {
    if fields == [] {
      assert FieldMeanings(fields) == [];
    } else {
      FieldRead(fields[0].value);
      FieldsRead(fields[1..]);
      var members := FieldMembers(fields);
      assert members[0] == FieldMember(fields[0]);
      assert members[1..] == FieldMembers(fields[1..]);
      assert FieldMeanings(fields) == [(fields[0].key, Meaning(fields[0].value))] + FieldMeanings(fields[1..]);
    }
  }

  lemma {:induction false} LookupConcat(a: seq<Member>, b: seq<Member>, key: string)
    ensures Lookup(a + b, key) == if Lookup(a, key).Some? then Lookup(a, key) else Lookup(b, key)
  {
    if a == [] {
      assert a + b == b;
    } else {
      LookupConcat(a[1..], b, key);
      assert (a + b)[1..] == a[1..] + b;
    }
  }

  lemma {:induction false} LookupAt(members: seq<Member>, i: nat)
    requires i < |members| && forall j :: 0 <= j < i ==> members[j].key != members[i].key
    ensures Lookup(members, members[i].key) == Some(members[i].value)
  {
    if i > 0 {
      LookupAt(members[1..], i - 1);
    }
  }

  lemma {:induction false} LookupAbsent(members: seq<Member>, key: string)
    requires forall j :: 0 <= j < |members| ==> members[j].key != key
    ensures Lookup(members, key) == None
  {
    if members != [] {
      LookupAbsent(members[1..], key);
    }
  }

  lemma HeadLookups(event: Event)
    ensures var m := HeadMembers(event);
            && Lookup(m, "@timestamp") == Some(Str(event.timestamp))
            && Lookup(m, "level") == Some(Str(LevelName(event.severity)))
            && Lookup(m, "logger") == Some(Str(event.logger))
            && Lookup(m, "message") == Some(Str(event.message))
            && Lookup(m, "thread_id") == Some(Str(event.thread))
  {
    var m := HeadMembers(event);
    LookupAt(m, 0);
    LookupAt(m, 1);
    LookupAt(m, 2);
    LookupAt(m, 3);
    LookupAt(m, 4);
  }

  /** The names after the first five members. */
  predicate LaterKey(key: string) {
    key == "file" || key == "line" || key == "function" || TailKey(key)
  }

  predicate TailKey(key: string) {
    key == "trace_id" || key == "span_id" || key == "correlation_id" || key == "fields"
  }

  lemma HeadAbsent(event: Event, key: string)
    requires LaterKey(key)
    ensures Lookup(HeadMembers(event), key) == None
  {
    LookupAbsent(HeadMembers(event), key);
  }

  lemma LocationAbsent(location: Option<Location>, key: string)
    requires TailKey(key)
    ensures Lookup(LocationMembers(location), key) == None
  {
    LookupAbsent(LocationMembers(location), key);
  }

  lemma LocationRead(location: Option<Location>, members: seq<Member>)
    requires forall key :: key == "file" || key == "line" || key == "function" ==>
      Lookup(members, key) == Lookup(LocationMembers(location), key)
    ensures ReadLocation(members) == location
  {
    var m := LocationMembers(location);
    if location.Some? {
      LookupAt(m, 0);
      LookupAt(m, 1);
      LookupAt(m, 2);
      IntegerRead(location.value.line);
    }
  }

  lemma OptionLookup(key: string, value: Option<string>, k: string)
    ensures Lookup(OptionMember(key, value), k) ==
            if k == key && value.Some? then Some(Str(value.value)) else None
  {
    if value.Some? {
      assert OptionMember(key, value)[1..] == [];
    }
  }

  lemma TailLookup(event: Event, key: string)
    requires LaterKey(key)
    ensures Lookup(TailMembers(event), key) ==
            if key == "trace_id" && event.trace.Some? then Some(Str(event.trace.value))
            else if key == "span_id" && event.span.Some? then Some(Str(event.span.value))
            else if key == "correlation_id" && event.correlation.Some? then Some(Str(event.correlation.value))
            else if key == "fields" then Some(Object(FieldMembers(event.fields)))
            else None
  {
    var a, b := OptionMember("trace_id", event.trace), OptionMember("span_id", event.span);
    var c := OptionMember("correlation_id", event.correlation);
    var d := [Member("fields", Object(FieldMembers(event.fields)))];
    OptionLookup("trace_id", event.trace, key);
    OptionLookup("span_id", event.span, key);
    OptionLookup("correlation_id", event.correlation, key);
    LookupConcat(a, b, key);
    LookupConcat(a + b, c, key);
    LookupConcat(a + b + c, d, key);
    assert d[1..] == [];
  }

  lemma EventLookup(event: Event, key: string)
    ensures Lookup(EventMembers(event), key) ==
            if Lookup(HeadMembers(event), key).Some? then Lookup(HeadMembers(event), key)
            else if Lookup(LocationMembers(event.location), key).Some? then Lookup(LocationMembers(event.location), key)
            else Lookup(TailMembers(event), key)
  {
    LookupConcat(HeadMembers(event), LocationMembers(event.location), key);
    LookupConcat(HeadMembers(event) + LocationMembers(event.location), TailMembers(event), key);
  }

  lemma HeadRead(event: Event)
    ensures var m := EventMembers(event);
            && ReadText(m, "@timestamp") == Some(event.timestamp)
            && ReadText(m, "level") == Some(LevelName(event.severity))
            && ReadText(m, "logger") == Some(event.logger)
            && ReadText(m, "message") == Some(event.message)
            && ReadText(m, "thread_id") == Some(event.thread)
  {
    HeadLookups(event);
    EventLookup(event, "@timestamp");
    EventLookup(event, "level");
    EventLookup(event, "logger");
    EventLookup(event, "message");
    EventLookup(event, "thread_id");
  }

  lemma MiddleRead(event: Event)
    ensures ReadLocation(EventMembers(event)) == event.location
  {
    forall key | key == "file" || key == "line" || key == "function"
      ensures Lookup(EventMembers(event), key) == Lookup(LocationMembers(event.location), key)
    {
      EventLookup(event, key);
      HeadAbsent(event, key);
      TailLookup(event, key);
    }
    LocationRead(event.location, EventMembers(event));
  }

  lemma LateLookup(event: Event, key: string)
    requires TailKey(key)
    ensures Lookup(EventMembers(event), key) == Lookup(TailMembers(event), key)
  {
    EventLookup(event, key);
    HeadAbsent(event, key);
    LocationAbsent(event.location, key);
  }

  lemma TailRead(event: Event)
    ensures var m := EventMembers(event);
            && ReadText(m, "trace_id") == event.trace
            && ReadText(m, "span_id") == event.span
            && ReadText(m, "correlation_id") == event.correlation
            && ReadFieldsMember(m) == Some(FieldMeanings(event.fields))
  {
    LateLookup(event, "trace_id");
    LateLookup(event, "span_id");
    LateLookup(event, "correlation_id");
    LateLookup(event, "fields");
    TailLookup(event, "trace_id");
    TailLookup(event, "span_id");
    TailLookup(event, "correlation_id");
    TailLookup(event, "fields");
    FieldsRead(event.fields);
  }

  /** The record of any event, read by name, is that event: nothing is lost, altered or reordered. */
  lemma EventRecovered(event: Event)
    ensures ReadEvent(Print(EventValue(event))) == Some(EventMeaning(event))
    ensures ReadEvent(Record(event)) == Some(EventMeaning(event))
  {
    TextUndone(EventValue(event));
    RecordParses(EventValue(event));
    HeadRead(event);
    MiddleRead(event);
    TailRead(event);
  }

  /** White space after a text does not change what it parses to. */
  lemma RecordParses(v: Value)
    ensures ParseText(Print(v) + "\n") == Some(v)
  {
    ParseEmit(v, "\n");
    EmitStarts(v, "\n");
    EmitIs(v, "\n");
    assert "\n"[1..] == "";
  }

  /** Events written alike mean the same. */
  lemma EventInjective(e: Event, f: Event)
    requires Print(EventValue(e)) == Print(EventValue(f))
    ensures EventMeaning(e) == EventMeaning(f)
  {
    EventRecovered(e);
    EventRecovered(f);
  }
}
