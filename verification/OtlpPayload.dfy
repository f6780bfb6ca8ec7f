/** src/sinks/otlp_http_sink.cpp: the JSON export request for one event. */
module OtlpPayload {
  import opened Text
  import opened Json
  import opened JsonText
  import opened Events
  import opened EventJson

  function StringBox(s: string): Value {
    Object([Member("stringValue", Str(s))])
  }

  function Attribute(key: string, text: string): Value {
    Object([Member("key", Str(key)), Member("value", StringBox(text))])
  }

  /** A field's value goes out as the text of its JSON, inside a JSON string. */
  function Attributes(fields: seq<Field>): (items: seq<Value>)
    ensures |items| == |fields|
    ensures forall i :: 0 <= i < |fields| ==> items[i] == Attribute(fields[i].key, Print(FieldJson(fields[i].value)))
  {
    seq(|fields|, i requires 0 <= i < |fields| => Attribute(fields[i].key, Print(FieldJson(fields[i].value))))
  }

  function RecordHead(event: Event): seq<Member> {
    [Member("timeUnixNano", Str(SignedDecimal(event.nanos))), Member("severityText", Str(LevelName(event.severity))),
     Member("severityNumber", Integer(event.severity * 4))]
  }

  function RecordTail(event: Event): seq<Member> {
    [Member("body", StringBox(event.message))]
    + if event.fields == [] then [] else [Member("attributes", Array(Attributes(event.fields)))]
  }

  function RecordMembers(event: Event): seq<Member> {
    RecordHead(event) + OptionMember("traceId", event.trace) + OptionMember("spanId", event.span) + RecordTail(event)
  }

  function Resource(service: string): Value {
    Object([Member("attributes", Array([Attribute("service.name", service)]))])
  }

  function ScopeLogs(record: seq<Member>): Value {
    Object([Member("scope", Object([])), Member("logRecords", Array([Object(record)]))])
  }

  function ResourceLogs(service: string, record: seq<Member>): Value {
    Object([Member("resource", Resource(service)), Member("scopeLogs", Array([ScopeLogs(record)]))])
  }

  function Request(service: string, record: seq<Member>): Value {
    Object([Member("resourceLogs", Array([ResourceLogs(service, record)]))])
  }

  // The request's text, built from the inside out.

  lemma StringBoxKey()
    ensures Plain("stringValue")
    ensures "{\"" + "stringValue" + "\":" + "\"" == "{\"stringValue\":\"" && "\"" + "}" == "\"}"
  {
  }

  lemma StringBoxText(s: string)
    ensures Print(StringBox(s)) == "{\"stringValue\":\"" + Escape(s) + "\"}"
  {
    StringBoxKey();
    OneMember("stringValue", Str(s));
    Nest("{\"" + "stringValue" + "\":", "\"", Escape(s), "\"", "}");
  }

  lemma AttributeKeys()
    ensures Plain("key") && Plain("value")
    ensures "{\"" + "key" + "\":" + "\"" == "{\"key\":\""
    ensures "\"" + (",\"" + "value" + "\":") == "\",\"value\":"
  {
  }

  lemma AttributeJoin()
    ensures "\",\"value\":" + "{\"stringValue\":\"" == "\",\"value\":{\"stringValue\":\"" && "\"}" + "}" == "\"}}"
  {
  }

  /** One text with two holes inside another. */
  lemma JoinHoles(a: string, b: string, e: string, c: string, k: string, d: string, r: string, f: string, g: string)
    ensures a + (b + e + c) + k + (d + r + f) + g == a + b + e + (c + k + d) + r + (f + g)
  {
    Nest(a, b, e, c, k);
    Nest(a + b + e + (c + k), d, r, f, g);
    Regroup(a + b + e, c + k, d);
  }

  lemma AttributeText(key: string, text: string)
    ensures Print(Attribute(key, text)) ==
            "{\"key\":\"" + Escape(key) + "\",\"value\":{\"stringValue\":\"" + Escape(text) + "\"}}"
  {
    AttributeKeys();
    AttributeJoin();
    TwoMembers("key", Str(key), "value", StringBox(text));
    StringBoxText(text);
    JoinHoles("{\"" + "key" + "\":", "\"", Escape(key), "\"", ",\"" + "value" + "\":", "{\"stringValue\":\"",
              Escape(text), "\"}", "}");
  }

  lemma ServiceKey()
    ensures Escape("service.name") == "service.name"
  {
    assert Plain("service.name");
    PlainEscape("service.name");
  }

  lemma ServiceKeyJoin()
    ensures "{\"key\":\"" + "service.name" == "{\"key\":\"service.name"
  {
  }

  // The two long literals, in the pieces that their JSON structure gives them.

  function ServiceStart(): string {
    "{\"key\":\"service.name" + "\",\"value\":{\"stringValue\":\""
  }

  function ResourceStart(): string {
    "{\"attributes\":[" + ServiceStart()
  }

  function RequestStart(): string {
    "{\"resourceLogs\":[" + "{\"resource\":" + ResourceStart()
  }

  function RequestMiddle(): string {
    "\"}}]}" + ",\"scopeLogs\":[" + "{\"scope\":{},\"logRecords\":[{"
  }

  lemma ServiceText(service: string)
    ensures Print(Attribute("service.name", service)) == ServiceStart() + Escape(service) + "\"}}"
  {
    AttributeText("service.name", service);
    ServiceKey();
    ServiceKeyJoin();
  }

  lemma ResourceKey()
    ensures Plain("attributes") && "{\"" + "attributes" + "\":" + "[" == "{\"attributes\":["
    ensures "]" + "}" == "]}" && "\"}}" + "]}" == "\"}}]}"
  {
  }

  lemma ResourceText(service: string)
    ensures Print(Resource(service)) == ResourceStart() + Escape(service) + "\"}}]}"
  {
    ResourceKey();
    var attribute := Attribute("service.name", service);
    OneMember("attributes", Array([attribute]));
    Nest("{\"" + "attributes" + "\":", "[", Print(attribute), "]", "}");
    ServiceText(service);
    Nest("{\"attributes\":[", ServiceStart(), Escape(service), "\"}}", "]}");
  }

  lemma ScopeKeys()
    ensures Plain("scope") && Plain("logRecords")
    ensures "{\"" + "scope" + "\":" == "{\"scope\":" && ",\"" + "logRecords" + "\":" == ",\"logRecords\":"
  {
  }

  lemma ScopeJoin()
    ensures "{\"scope\":" + ("{" + "" + "}") + ",\"logRecords\":" + ("[" + "{") == "{\"scope\":{},\"logRecords\":[{"
    ensures "}" + "]" + "}" == "}]}"
  {
  }

  lemma ScopeMembers(records: Value)
    ensures Print(Object([Member("scope", Object([])), Member("logRecords", records)])) ==
            "{\"scope\":" + ("{" + "" + "}") + ",\"logRecords\":" + Print(records) + "}"
  {
    ScopeKeys();
    TwoMembers("scope", Object([]), "logRecords", records);
    assert PrintMembers([]) == "";
    assert Print(Object([])) == "{" + "" + "}";
  }

  lemma ScopeLogsText(record: seq<Member>)
    ensures Print(ScopeLogs(record)) == "{\"scope\":{},\"logRecords\":[{" + PrintMembers(record) + "}]}"
  {
    ScopeJoin();
    ScopeMembers(Array([Object(record)]));
    assert PrintItems([Object(record)]) == Print(Object(record));
    Nest("[", "{", PrintMembers(record), "}", "]");
    Nest("{\"scope\":" + ("{" + "" + "}") + ",\"logRecords\":", "[" + "{", PrintMembers(record), "}" + "]", "}");
  }

  lemma ResourceLogsKeys()
    ensures Plain("resource") && Plain("scopeLogs")
    ensures "{\"" + "resource" + "\":" == "{\"resource\":"
    ensures ",\"" + "scopeLogs" + "\":" == ",\"scopeLogs\":"
  {
  }

  lemma ResourceLogsJoin()
    ensures ",\"scopeLogs\":" + "[" == ",\"scopeLogs\":["
    ensures "]" + "}" == "]}" && "}]}" + "]}" == "}]}]}"
  {
  }

  lemma ResourceLogsMembers(service: string, logs: Value)
    ensures Print(Object([Member("resource", Resource(service)), Member("scopeLogs", Array([logs]))])) ==
            "{\"resource\":" + Print(Resource(service)) + ",\"scopeLogs\":[" + Print(logs) + "]}"
  {
    ResourceLogsKeys();
    ResourceLogsJoin();
    TwoMembers("resource", Resource(service), "scopeLogs", Array([logs]));
    Nest("{\"resource\":" + Print(Resource(service)) + ",\"scopeLogs\":", "[", Print(logs), "]", "}");
    Regroup("{\"resource\":" + Print(Resource(service)), ",\"scopeLogs\":", "[");
  }

  lemma ResourceLogsText(service: string, record: seq<Member>)
    ensures Print(ResourceLogs(service, record)) ==
            "{\"resource\":" + ResourceStart() + Escape(service) + RequestMiddle() + PrintMembers(record) + "}]}]}"
  {
    ResourceLogsJoin();
    ResourceLogsMembers(service, ScopeLogs(record));
    ResourceText(service);
    ScopeLogsText(record);
    JoinHoles("{\"resource\":", ResourceStart(), Escape(service), "\"}}]}", ",\"scopeLogs\":[",
              "{\"scope\":{},\"logRecords\":[{", PrintMembers(record), "}]}", "]}");
  }

  lemma RequestKey()
    ensures Plain("resourceLogs") && "{\"" + "resourceLogs" + "\":" + "[" == "{\"resourceLogs\":["
    ensures "]" + "}" == "]}" && "}]}]}" + "]}" == "}]}]}]}"
  {
  }

  /** Outermost braces around two holes. */
  lemma Around(l: string, a: string, b: string, e: string, m: string, r: string, f: string, g: string)
    ensures l + (a + b + e + m + r + f) + g == l + a + b + e + m + r + (f + g)
  {
    Nest(l, a + b + e + m, r, f, g);
    Regroup(l, a + b + e, m);
    Regroup(l, a + b, e);
    Regroup(l, a, b);
  }

  lemma RequestText(service: string, record: seq<Member>)
    ensures Print(Request(service, record)) ==
            RequestStart() + Escape(service) + RequestMiddle() + PrintMembers(record) + "}]}]}]}"
  {
    RequestKey();
    var inner := Print(ResourceLogs(service, record));
    OneMember("resourceLogs", Array([ResourceLogs(service, record)]));
    Nest("{\"" + "resourceLogs" + "\":", "[", inner, "]", "}");
    ResourceLogsText(service, record);
    Around("{\"resourceLogs\":[", "{\"resource\":", ResourceStart(), Escape(service), RequestMiddle(),
           PrintMembers(record), "}]}]}", "]}");
  }

  // The request as the source appends it.

  method AppendPlainString(key: string, value: string, first: bool, output: Output)
    modifies output
    ensures output.text == old(output.text) + StringKey(first, key) + Escape(value) + "\""
  {
    ghost var start := output.text;
    if !first {
      output.Append(",");
    }
    output.Append("\"");
    output.Append(key);
    output.Append("\":\"");
    assert output.text == start + StringKey(first, key) by {
      KeyPieces(start, Comma(first), key);
    }
    AppendEscaped(value, output);
    output.Append("\"");
  }

  lemma KeyPieces(start: string, comma: string, key: string)
    ensures start + comma + "\"" + key + "\":\"" == start + (comma + "\"" + key + "\":\"")
    ensures comma == "" ==> start + comma == start
  {
    Regroup(start, comma + "\"" + key, "\":\"");
    Regroup(start, comma + "\"", key);
    Regroup(start, comma, "\"");
  }

  /** The lambda add_string of make_otlp_json. */
  method AddString(key: string, value: string, first: bool, output: Output, ghost start: string,
                   ghost members: seq<Member>)
      returns (stillFirst: bool)
    requires Plain(key) && (first <==> members == []) && output.text == start + PrintMembers(members)
    modifies output
    ensures output.text == start + PrintMembers(members + [Member(key, Str(value))]) && !stillFirst
  {
    AppendPlainString(key, value, first, output);
    stillFirst := false;
    StringMembersGrow(start, members, key, value);
  }

  lemma {:induction false} DecimalPlain(i: int)
    ensures Plain(SignedDecimal(i))
  {
    var digits := if i < 0 then Decimal(-i) else Decimal(i);
    assert forall k :: 0 <= k < |digits| ==> IsDigit(digits[k]);
  }

  lemma TimeKey()
    ensures Plain("timeUnixNano") && "\"timeUnixNano\":\"" == StringKey(true, "timeUnixNano")
  {
  }

  lemma SeverityKeys()
    ensures Plain("severityText") && Plain("severityNumber")
    ensures "," + "\"severityNumber\":" == PlainKey(false, "severityNumber")
  {
  }

  lemma BodyKey()
    ensures Plain("body")
    ensures "," + ("\"body\":" + "{\"stringValue\":\"") == PlainKey(false, "body") + "{\"stringValue\":\""
  {
  }

  lemma AttributesKey()
    ensures Plain("attributes") && "," + "\"attributes\":[" == PlainKey(false, "attributes") + "["
  {
  }

  lemma IdKeys()
    ensures Plain("traceId") && Plain("spanId")
  {
  }

  lemma TimeText(start: string, nanos: int)
    ensures start + ("\"timeUnixNano\":\"" + SignedDecimal(nanos) + "\"") ==
            start + PrintMembers([Member("timeUnixNano", Str(SignedDecimal(nanos)))])
  {
    TimeKey();
    DecimalPlain(nanos);
    PlainEscape(SignedDecimal(nanos));
    StringMembersGrow(start, [], "timeUnixNano", SignedDecimal(nanos));
    var m := Member("timeUnixNano", Str(SignedDecimal(nanos)));
    assert [] + [m] == [m];
    assert start + "" == start;
    Regroup(start, "\"timeUnixNano\":\"" + SignedDecimal(nanos), "\"");
    Regroup(start, "\"timeUnixNano\":\"", SignedDecimal(nanos));
  }

  /** The first member: no comma before it. */
  method AppendTime(nanos: int64, output: Output, ghost start: string)
    requires output.text == start
    modifies output
    ensures output.text == start + PrintMembers([Member("timeUnixNano", Str(SignedDecimal(nanos)))])
  {
    output.Append("\"timeUnixNano\":\"" + SignedDecimal(nanos) + "\"");
    TimeText(start, nanos);
  }

  lemma RecordHeadSlices(event: Event)
    ensures var head := RecordHead(event);
            && head[..1] == [Member("timeUnixNano", Str(SignedDecimal(event.nanos)))]
            && head[..2] == head[..1] + [Member("severityText", Str(LevelName(event.severity)))]
            && head == head[..2] + [Member("severityNumber", Integer(event.severity * 4))]
  {
  }

  method AppendRecordHead(event: Event, output: Output, ghost start: string)
    requires output.text == start
    modifies output
    ensures output.text == start + PrintMembers(RecordHead(event))
  {
    ghost var head := RecordHead(event);
    RecordHeadSlices(event);
    AppendTime(event.nanos, output, start);
    SeverityKeys();
    var first := AddString("severityText", LevelName(event.severity), false, output, start, head[..1]);
    AppendSeverityNumber(event.severity, output, start, head[..2]);
  }

  method AppendSeverityNumber(severity: uint8, output: Output, ghost start: string, ghost members: seq<Member>)
    requires members != [] && output.text == start + PrintMembers(members)
    modifies output
    ensures output.text == start + PrintMembers(members + [Member("severityNumber", Integer(severity * 4))])
  {
    SeverityKeys();
    PlainMembersGrow(start, members, "severityNumber", Integer(severity * 4));
    Regroup(output.text, ",", "\"severityNumber\":");
    Regroup(output.text + ",", "\"severityNumber\":", SignedDecimal(severity * 4));
    output.Append(",");
    output.Append("\"severityNumber\":" + SignedDecimal(severity * 4));
  }

  method AddOptional(key: string, value: Option<string>, output: Output, ghost start: string,
                     ghost members: seq<Member>)
    requires Plain(key) && members != [] && output.text == start + PrintMembers(members)
    modifies output
    ensures output.text == start + PrintMembers(members + OptionMember(key, value))
  {
    if value.Some? {
      var _ := AddString(key, value.value, false, output, start, members);
    } else {
      assert members + [] == members;
    }
  }

  lemma BodyText(text: string, message: string)
    ensures text + "," + ("\"body\":" + "{\"stringValue\":\"") + Escape(message) + "\"}" ==
            text + PlainKey(false, "body") + Print(StringBox(message))
  {
    BodyKey();
    StringBoxText(message);
    Regroup(text, ",", "\"body\":" + "{\"stringValue\":\"");
    Regroup(text, PlainKey(false, "body"), "{\"stringValue\":\"");
    Regroup(text + PlainKey(false, "body"), "{\"stringValue\":\"" + Escape(message), "\"}");
    Regroup(text + PlainKey(false, "body"), "{\"stringValue\":\"", Escape(message));
  }

  method AppendBody(message: string, output: Output, ghost start: string, ghost members: seq<Member>)
    requires members != [] && output.text == start + PrintMembers(members)
    modifies output
    ensures output.text == start + PrintMembers(members + [Member("body", StringBox(message))])
  {
    BodyKey();
    BodyText(output.text, message);
    PlainMembersGrow(start, members, "body", StringBox(message));
    output.Append(",");
    output.Append("\"body\":" + "{\"stringValue\":\"");
    AppendEscaped(message, output);
    output.Append("\"}");
  }

  lemma AttributePieces(text: string, key: string, value: string)
    ensures text + "{\"key\":\"" + Escape(key) + "\",\"value\":{\"stringValue\":\"" + Escape(value) + "\"}}" ==
            text + Print(Attribute(key, value))
  {
    AttributeText(key, value);
    var a, e, b, f, c := "{\"key\":\"", Escape(key), "\",\"value\":{\"stringValue\":\"", Escape(value), "\"}}";
    Regroup(text, a, e);
    Regroup(text, a + e, b);
    Regroup(text, a + e + b, f);
    Regroup(text, a + e + b + f, c);
  }

  method AppendAttribute(field: Field, first: bool, output: Output)
    modifies output
    ensures output.text ==
            old(output.text) + Comma(first) + Print(Attribute(field.key, Print(FieldJson(field.value))))
  {
    if !first {
      output.Append(",");
    }
    AttributePieces(output.text, field.key, Print(FieldJson(field.value)));
    output.Append("{\"key\":\"");
    AppendEscaped(field.key, output);
    output.Append("\",\"value\":{\"stringValue\":\"");
    var json := FieldToJson(field.value);
    AppendEscaped(json, output);
    output.Append("\"}}");
  }

  lemma AttributesGrow(start: string, fields: seq<Field>, i: nat)
    requires i < |fields|
    ensures start + PrintItems(Attributes(fields[..i + 1])) ==
            start + PrintItems(Attributes(fields[..i])) + Comma(i == 0)
            + Print(Attribute(fields[i].key, Print(FieldJson(fields[i].value))))
  {
    var item := Attribute(fields[i].key, Print(FieldJson(fields[i].value)));
    assert Attributes(fields[..i + 1]) == Attributes(fields[..i]) + [item];
    ItemsGrow(start, Attributes(fields[..i]), item);
  }

  lemma AttributesClose(text: string, items: seq<Value>)
    ensures text + "," + "\"attributes\":[" + PrintItems(items) + "]" ==
            text + PlainKey(false, "attributes") + Print(Array(items))
  {
    AttributesKey();
    var k, p := PlainKey(false, "attributes"), PrintItems(items);
    Regroup(text, ",", "\"attributes\":[");
    Regroup(text, k, "[");
    Regroup(text + k, "[" + p, "]");
    Regroup(text + k, "[", p);
  }

  method AppendAttributes(fields: seq<Field>, output: Output, ghost start: string, ghost members: seq<Member>)
    requires members != [] && output.text == start + PrintMembers(members)
    modifies output
    ensures output.text == start + PrintMembers(members + [Member("attributes", Array(Attributes(fields)))])
  {
    AttributesKey();
    AttributesClose(output.text, Attributes(fields));
    PlainMembersGrow(start, members, "attributes", Array(Attributes(fields)));
    output.Append(",");
    output.Append("\"attributes\":[");
    ghost var open := output.text;
    assert open + "" == open;
    var firstAttribute := true;
    for i := 0 to |fields|
      invariant firstAttribute <==> i == 0
      invariant output.text == open + PrintItems(Attributes(fields[..i]))
    {
      AttributesGrow(open, fields, i);
      AppendAttribute(fields[i], firstAttribute, output);
      firstAttribute := false;
    }
    assert fields[..|fields|] == fields;
    output.Append("]");
  }

  method AppendRecord(event: Event, output: Output, ghost start: string)
    requires output.text == start
    modifies output
    ensures output.text == start + PrintMembers(RecordMembers(event))
  {
    ghost var head := RecordHead(event);
    AppendRecordHead(event, output, start);
    IdKeys();
    AddOptional("traceId", event.trace, output, start, head);
    ghost var traced := head + OptionMember("traceId", event.trace);
    AddOptional("spanId", event.span, output, start, traced);
    ghost var spanned := traced + OptionMember("spanId", event.span);
    AppendBody(event.message, output, start, spanned);
    if event.fields != [] {
      AppendAttributes(event.fields, output, start, spanned + [Member("body", StringBox(event.message))]);
    }
    TailMembersAre(event, spanned);
  }

  lemma TailMembersAre(event: Event, members: seq<Member>)
    ensures event.fields == [] ==> members + [Member("body", StringBox(event.message))] == members + RecordTail(event)
    ensures event.fields != [] ==>
      members + [Member("body", StringBox(event.message))] + [Member("attributes", Array(Attributes(event.fields)))]
      == members + RecordTail(event)
  {
  }

  /** The body is one JSON text, for every event and every choice of optional members. */
  method MakeOtlpJson(event: Event, service: string) returns (payload: string)
    ensures payload == Print(Request(service, RecordMembers(event)))
    ensures ParseText(payload) == Some(Request(service, RecordMembers(event)))
  {
    var output := new Output();
    output.Append(RequestStart());
    assert "" + RequestStart() == RequestStart();
    AppendEscaped(service, output);
    output.Append(RequestMiddle());
    AppendRecord(event, output, output.text);
    output.Append("}]}]}]}");
    payload := output.text;
    RequestText(service, RecordMembers(event));
    TextUndone(Request(service, RecordMembers(event)));
  }
}
