/** A collector's view of the export request: it walks down to the log record and decodes attributes twice. */
module OtlpReader {
  import opened Text
  import opened Json
  import opened Events
  import opened EventJson
  import opened EventReader
  import opened OtlpPayload

  function MemberOf(v: Value, key: string): Option<Value> {
    if v.Object? then Lookup(v.members, key) else None
  }

  /** The first item of the array that is this member. */
  function FirstOf(v: Value, key: string): Option<Value> {
    var list := MemberOf(v, key);
    if list.Some? && list.value.Array? && list.value.items != [] then Some(list.value.items[0]) else None
  }

  function LogRecord(request: Value): Option<Value> {
    var resource := FirstOf(request, "resourceLogs");
    if resource.None? then None
    else
      var scope := FirstOf(resource.value, "scopeLogs");
      if scope.None? then None else FirstOf(scope.value, "logRecords")
  }

  /** Decoded once by the parser of the request, and here once more. */
  function ReadAttribute(v: Value): Option<(string, Value)> {
    var key, box := MemberOf(v, "key"), MemberOf(v, "value");
    if key.None? || !key.value.Str? || box.None? then None
    else
      var text := MemberOf(box.value, "stringValue");
      if text.None? || !text.value.Str? then None
      else
        var decoded := ParseText(text.value.s);
        if decoded.Some? then Some((key.value.s, decoded.value)) else None
  }

  function ReadAttributes(items: seq<Value>): Option<seq<(string, Value)>> {
    if items == [] then Some([])
    else
      var first, rest := ReadAttribute(items[0]), ReadAttributes(items[1..]);
      if first.Some? && rest.Some? then Some([first.value] + rest.value) else None
  }

  /** The attributes of the record; a record without the member has none. */
  function RecordAttributes(record: Value): Option<seq<(string, Value)>> {
    var list := MemberOf(record, "attributes");
    if list.None? then Some([])
    else if list.value.Array? then ReadAttributes(list.value.items)
    else None
  }

  function ReadRequest(text: string): Option<seq<(string, Value)>> {
    var request := ParseText(text);
    if request.None? then None
    else
      var record := LogRecord(request.value);
      if record.Some? then RecordAttributes(record.value) else None
  }

  /** What ought to come back. */
  function FieldPairs(fields: seq<Field>): seq<(string, Value)> {
    seq(|fields|, i requires 0 <= i < |fields| => (fields[i].key, FieldJson(fields[i].value)))
  }

  lemma AttributeRead(key: string, v: Value)
    ensures ReadAttribute(Attribute(key, Print(v))) == Some((key, v))
  {
    TextUndone(v);
    LookupAt(Attribute(key, Print(v)).members, 0);
    LookupAt(Attribute(key, Print(v)).members, 1);
    LookupAt(StringBox(Print(v)).members, 0);
  }

  lemma {:induction false} AttributesRead(fields: seq<Field>)
    ensures ReadAttributes(Attributes(fields)) == Some(FieldPairs(fields))
  {
    if fields == [] {
      assert FieldPairs(fields) == [];
    } else {
      AttributeRead(fields[0].key, FieldJson(fields[0].value));
      AttributesRead(fields[1..]);
      assert Attributes(fields)[1..] == Attributes(fields[1..]);
      assert FieldPairs(fields) == [(fields[0].key, FieldJson(fields[0].value))] + FieldPairs(fields[1..]);
    }
  }

  lemma ScopeRead(record: seq<Member>)
    ensures FirstOf(ScopeLogs(record), "logRecords") == Some(Object(record))
  {
    LookupAt(ScopeLogs(record).members, 1);
  }

  lemma ResourceRead(service: string, record: seq<Member>)
    ensures FirstOf(ResourceLogs(service, record), "scopeLogs") == Some(ScopeLogs(record))
  {
    LookupAt(ResourceLogs(service, record).members, 1);
  }

  lemma RequestRead(service: string, record: seq<Member>)
    ensures LogRecord(Request(service, record)) == Some(Object(record))
  {
    LookupAt(Request(service, record).members, 0);
    ResourceRead(service, record);
    ScopeRead(record);
  }

  lemma HeadLookup(event: Event, key: string)
    ensures Lookup(RecordHead(event), key) ==
            if key == "timeUnixNano" then Some(Str(SignedDecimal(event.nanos)))
            else if key == "severityText" then Some(Str(LevelName(event.severity)))
            else if key == "severityNumber" then Some(Integer(event.severity * 4))
            else None
  {
    var head := RecordHead(event);
    if key == "timeUnixNano" {
      LookupAt(head, 0);
    } else if key == "severityText" {
      LookupAt(head, 1);
    } else if key == "severityNumber" {
      LookupAt(head, 2);
    } else {
      LookupAbsent(head, key);
    }
  }

  lemma TailLookup(event: Event, key: string)
    ensures Lookup(RecordTail(event), key) ==
            if key == "body" then Some(StringBox(event.message))
            else if key == "attributes" && event.fields != [] then Some(Array(Attributes(event.fields)))
            else None
  {
    var tail := RecordTail(event);
    if key == "body" {
      LookupAt(tail, 0);
    } else if key == "attributes" && event.fields != [] {
      LookupAt(tail, 1);
    } else {
      LookupAbsent(tail, key);
    }
  }

  /** Each name of the record, present or absent. */
  lemma RecordLookup(event: Event, key: string)
    ensures Lookup(RecordMembers(event), key) ==
            if key == "timeUnixNano" then Some(Str(SignedDecimal(event.nanos)))
            else if key == "severityText" then Some(Str(LevelName(event.severity)))
            else if key == "severityNumber" then Some(Integer(event.severity * 4))
            else if key == "traceId" && event.trace.Some? then Some(Str(event.trace.value))
            else if key == "spanId" && event.span.Some? then Some(Str(event.span.value))
            else if key == "body" then Some(StringBox(event.message))
            else if key == "attributes" && event.fields != [] then Some(Array(Attributes(event.fields)))
            else None
  {
    var head, a, b := RecordHead(event), OptionMember("traceId", event.trace), OptionMember("spanId", event.span);
    HeadLookup(event, key);
    OptionLookup("traceId", event.trace, key);
    OptionLookup("spanId", event.span, key);
    TailLookup(event, key);
    LookupConcat(head, a, key);
    LookupConcat(head + a, b, key);
    LookupConcat(head + a + b, RecordTail(event), key);
  }

  /** Decoding each attribute twice gives the JSON value of every field, in order. */
  lemma RequestAttributes(event: Event, service: string)
    ensures ReadRequest(Print(Request(service, RecordMembers(event)))) == Some(FieldPairs(event.fields))
  {
    TextUndone(Request(service, RecordMembers(event)));
    RequestRead(service, RecordMembers(event));
    RecordLookup(event, "attributes");
    AttributesRead(event.fields);
    assert event.fields == [] ==> FieldPairs(event.fields) == [];
  }

  // The record and its resource, by name.

  datatype LogReading = LogReading(
    time: Scalar, severityText: string, severityNumber: Scalar, trace: Option<string>, span: Option<string>,
    body: string, service: string)

  function TextMember(v: Value, key: string): Option<string> {
    var text := MemberOf(v, key);
    if text.Some? && text.value.Str? then Some(text.value.s) else None
  }

  /** The text of the first attribute with this key. */
  function AttributeOf(items: seq<Value>, key: string): Option<string> {
    if items == [] then None
    else if TextMember(items[0], "key") == Some(key) then
      var box := MemberOf(items[0], "value");
      if box.Some? then TextMember(box.value, "stringValue") else None
    else AttributeOf(items[1..], key)
  }

  function ServiceOf(request: Value): Option<string> {
    var logs := FirstOf(request, "resourceLogs");
    if logs.None? then None
    else
      var resource := MemberOf(logs.value, "resource");
      if resource.None? then None
      else
        var list := MemberOf(resource.value, "attributes");
        if list.Some? && list.value.Array? then AttributeOf(list.value.items, "service.name") else None
  }

  function NumberMember(v: Value, key: string): Option<Scalar> {
    var n := MemberOf(v, key);
    if n.Some? && n.value.Number? then Some(ReadNumber(n.value.token)) else None
  }

  /** The time is a number inside a string. */
  function ReadLog(text: string): Option<LogReading> {
    var request := ParseText(text);
    if request.None? then None
    else
      var record, service := LogRecord(request.value), ServiceOf(request.value);
      if record.None? || service.None? then None
      else
        var r := record.value;
        var time, name, number := TextMember(r, "timeUnixNano"), TextMember(r, "severityText"),
                                  NumberMember(r, "severityNumber");
        var box := MemberOf(r, "body");
        var body := if box.Some? then TextMember(box.value, "stringValue") else None;
        if time.None? || name.None? || number.None? || body.None? then None
        else
          Some(LogReading(ReadNumber(time.value), name.value, number.value, TextMember(r, "traceId"),
                          TextMember(r, "spanId"), body.value, service.value))
  }

  lemma ServiceRead(service: string, record: seq<Member>)
    ensures ServiceOf(Request(service, record)) == Some(service)
  {
    LookupAt(Request(service, record).members, 0);
    LookupAt(ResourceLogs(service, record).members, 0);
    LookupAt(Resource(service).members, 0);
    var attribute := Attribute("service.name", service);
    LookupAt(attribute.members, 0);
    LookupAt(attribute.members, 1);
    LookupAt(StringBox(service).members, 0);
  }

  lemma RecordRead(event: Event)
    ensures var r := Object(RecordMembers(event));
            && TextMember(r, "timeUnixNano") == Some(SignedDecimal(event.nanos))
            && TextMember(r, "severityText") == Some(LevelName(event.severity))
            && NumberMember(r, "severityNumber") == Some(IntScalar(4 * event.severity))
            && TextMember(r, "traceId") == event.trace && TextMember(r, "spanId") == event.span
            && MemberOf(r, "body") == Some(StringBox(event.message))
            && TextMember(StringBox(event.message), "stringValue") == Some(event.message)
  {
    RecordLookup(event, "timeUnixNano");
    RecordLookup(event, "severityText");
    RecordLookup(event, "severityNumber");
    RecordLookup(event, "traceId");
    RecordLookup(event, "spanId");
    RecordLookup(event, "body");
    IntegerRead(event.severity * 4);
    LookupAt(StringBox(event.message).members, 0);
  }

  /**
  A collector that reads the request by name gets each part from where it belongs: time, severity, the ids that are
  there and only those, message, and the service.
  */
  lemma RequestRecovered(event: Event, service: string)
    ensures ReadLog(Print(Request(service, RecordMembers(event)))) ==
            Some(LogReading(IntScalar(event.nanos), LevelName(event.severity), IntScalar(4 * event.severity),
                            event.trace, event.span, event.message, service))
  {
    TextUndone(Request(service, RecordMembers(event)));
    RequestRead(service, RecordMembers(event));
    ServiceRead(service, RecordMembers(event));
    RecordRead(event);
    IntegerRead(event.nanos);
  }
}
