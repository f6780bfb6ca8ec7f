/**
src/json.cpp: the printers append to a growing text. Each is proved against the value it is meant to write.
`EventReader` gets the event back from the text.
*/
module EventJson {
  import opened Text
  import opened Json
  import opened JsonText
  import opened Events

  class Output {
    var text: string

    constructor ()
      ensures text == ""
    {
      text := "";
    }

    method Push(c: char)
      modifies this
      ensures text == old(text) + [c]
    {
      text := text + [c];
    }

    method Append(s: string)
      modifies this
      ensures text == old(text) + s
    {
      text := text + s;
    }
  }

  // The value each printer writes.

  function FieldJson(v: FieldValue): Value {
    match v
    case NullValue => Null
    case BoolValue(b) => Bool(b)
    case Int64Value(i) => Integer(i)
    case UInt64Value(u) => Integer(u)
    case DoubleValue(d) => if d.Finite? then Number(d.token) else Null
    case StringValue(s) => Str(s)
  }

  function Integer(i: int): Value {
    SignedDecimalIsNumber(i);
    Number(SignedDecimal(i))
  }

  function FieldMember(f: Field): Member {
    Member(f.key, FieldJson(f.value))
  }

  function FieldMembers(fields: seq<Field>): (members: seq<Member>)
    ensures |members| == |fields|
    ensures forall i :: 0 <= i < |fields| ==> members[i] == FieldMember(fields[i])
  {
    seq(|fields|, i requires 0 <= i < |fields| => FieldMember(fields[i]))
  }

  function OptionMember(key: string, value: Option<string>): seq<Member> {
    if value.Some? then [Member(key, Str(value.value))] else []
  }

  function HeadMembers(event: Event): seq<Member> {
    [Member("@timestamp", Str(event.timestamp)), Member("level", Str(LevelName(event.severity))),
     Member("logger", Str(event.logger)), Member("message", Str(event.message)),
     Member("thread_id", Str(event.thread))]
  }

  function LocationMembers(location: Option<Location>): seq<Member> {
    if location.None? then []
    else
      [Member("file", Str(location.value.file)), Member("line", Integer(location.value.line)),
       Member("function", Str(location.value.func))]
  }

  function TailMembers(event: Event): seq<Member> {
    OptionMember("trace_id", event.trace) + OptionMember("span_id", event.span)
    + OptionMember("correlation_id", event.correlation) + [Member("fields", Object(FieldMembers(event.fields)))]
  }

  function EventMembers(event: Event): seq<Member> {
    HeadMembers(event) + LocationMembers(event.location) + TailMembers(event)
  }

  function EventValue(event: Event): Value {
    Object(EventMembers(event))
  }

  // The printers.

  method AppendEscaped(value: string, output: Output)
    modifies output
    ensures output.text == old(output.text) + Escape(value)
  {
    ghost var start := output.text;
    for i := 0 to |value|
      invariant output.text == start + Escape(value[..i])
    {
      EscapeAppend(value[..i], value[i]);
      assert value[..i + 1] == value[..i] + [value[i]];
      Regroup(start, Escape(value[..i]), EscapeChar(value[i]));
      var ch := value[i];
      match ch {
        case '"' => output.Append("\\\"");
        case '\\' => output.Append("\\\\");
        case '\n' => output.Append("\\n");
        case '\r' => output.Append("\\r");
        case '\t' => output.Append("\\t");
        case _ =>
          if ch == 8 as char {
            output.Append("\\b");
          } else if ch == 12 as char {
            output.Append("\\f");
          } else if ch < ' ' {
            ghost var before := output.text;
            output.Append("\\u00");
            output.Push(HEX[ch as int / 16]);
            output.Push(HEX[ch as int % 16]);
            PushTwo(before, "\\u00", HEX[ch as int / 16], HEX[ch as int % 16]);
          } else {
            output.Push(ch);
          }
      }
    }
    assert value[..|value|] == value;
  }

  lemma PushTwo(a: string, b: string, c: char, d: char)
    ensures a + b + [c] + [d] == a + (b + [c, d])
  {
  }

  method AppendString(value: string, output: Output)
    modifies output
    ensures output.text == old(output.text) + Quote(value)
  {
    ghost var start := output.text;
    output.Push('"');
    AppendEscaped(value, output);
    output.Push('"');
    Regroup(start, "\"", Escape(value));
    Regroup(start, "\"" + Escape(value), "\"");
  }

  method AppendFieldValue(value: FieldValue, output: Output)
    modifies output
    ensures output.text == old(output.text) + Print(FieldJson(value))
  {
    match value
    case NullValue => output.Append("null");
    case BoolValue(b) => output.Append(if b then "true" else "false");
    case Int64Value(i) => output.Append(SignedDecimal(i));
    case UInt64Value(u) => output.Append(SignedDecimal(u));
    case DoubleValue(d) =>
      if d != NotFinite {
        if d.Finite? {
          output.Append(d.token);
        } else {
          output.Append("null");
        }
      } else {
        output.Append("null");
      }
    case StringValue(s) => AppendString(s, output);
  }

  /** An object with these members, not yet closed. */
  ghost function OpenObject(members: seq<Member>): string {
    "{" + PrintMembers(members)
  }

  method AppendKey(key: string, first: bool, output: Output)
    modifies output
    ensures output.text == old(output.text) + Comma(first) + Quote(key) + ":"
  {
    if !first {
      output.Push(',');
    }
    AppendString(key, output);
    output.Push(':');
  }

  lemma FieldsGrow(start: string, fields: seq<Field>, i: nat)
    requires i < |fields|
    ensures start + PrintMembers(FieldMembers(fields[..i + 1])) ==
            start + PrintMembers(FieldMembers(fields[..i])) + Comma(i == 0)
            + Quote(fields[i].key) + ":" + Print(FieldJson(fields[i].value))
  {
    MembersGrow(start, FieldMembers(fields[..i]), FieldMember(fields[i]));
    assert FieldMembers(fields[..i + 1]) == FieldMembers(fields[..i]) + [FieldMember(fields[i])];
  }

  lemma ObjectCloses(start: string, members: seq<Member>)
    ensures start + "{" + PrintMembers(members) + "}" == start + Print(Object(members))
  {
    Bracket(start, "{", PrintMembers(members), "}");
    Regroup("{", PrintMembers(members), "}");
  }

  method AppendFieldsObject(fields: seq<Field>, output: Output)
    modifies output
    ensures output.text == old(output.text) + Print(Object(FieldMembers(fields)))
  {
    ghost var start := output.text;
    output.Push('{');
    var first := true;
    assert start + "{" + "" == start + "{";
    for i := 0 to |fields|
      invariant first <==> i == 0
      invariant output.text == start + "{" + PrintMembers(FieldMembers(fields[..i]))
    {
      FieldsGrow(start + "{", fields, i);
      AppendKey(fields[i].key, first, output);
      first := false;
      AppendFieldValue(fields[i].value, output);
    }
    assert fields[..|fields|] == fields;
    output.Push('}');
    ObjectCloses(start, FieldMembers(fields));
  }

  /** to_json(field value). */
  method FieldToJson(value: FieldValue) returns (text: string)
    ensures text == Print(FieldJson(value))
    ensures ParseText(text) == Some(FieldJson(value))
  {
    var output := new Output();
    AppendFieldValue(value, output);
    text := output.text;
    TextUndone(FieldJson(value));
  }

  method AppendNamedString(key: string, value: string, first: bool, output: Output, ghost members: seq<Member>)
      returns (stillFirst: bool)
    requires first <==> members == []
    requires output.text == OpenObject(members)
    modifies output
    ensures output.text == OpenObject(members + [Member(key, Str(value))]) && !stillFirst
  {
    MembersGrow("{", members, Member(key, Str(value)));
    AppendKey(key, first, output);
    stillFirst := false;
    AppendString(value, output);
  }

  method AppendNamedObject(key: string, fields: seq<Field>, first: bool, output: Output, ghost members: seq<Member>)
      returns (stillFirst: bool)
    requires first <==> members == []
    requires output.text == OpenObject(members)
    modifies output
    ensures output.text == OpenObject(members + [Member(key, Object(FieldMembers(fields)))]) && !stillFirst
  {
    MembersGrow("{", members, Member(key, Object(FieldMembers(fields))));
    AppendKey(key, first, output);
    stillFirst := false;
    AppendFieldsObject(fields, output);
  }

  method AppendOptional(key: string, value: Option<string>, first: bool, output: Output, ghost members: seq<Member>)
      returns (stillFirst: bool)
    requires first <==> members == []
    requires output.text == OpenObject(members)
    modifies output
    ensures output.text == OpenObject(members + OptionMember(key, value))
    ensures stillFirst <==> first && value.None?
  {
    stillFirst := first;
    if value.Some? {
      stillFirst := AppendNamedString(key, value.value, first, output, members);
    } else {
      assert members + [] == members;
    }
  }

  method AppendHead(event: Event, output: Output) returns (first: bool)
    requires output.text == "{"
    modifies output
    ensures output.text == OpenObject(HeadMembers(event)) && !first
  {
    first := true;
    assert OpenObject([]) == "{";
    ghost var members := HeadMembers(event);
    first := AppendNamedString("@timestamp", event.timestamp, first, output, []);
    assert [] + [members[0]] == members[..1];
    first := AppendNamedString("level", LevelName(event.severity), first, output, members[..1]);
    assert members[..1] + [members[1]] == members[..2];
    first := AppendNamedString("logger", event.logger, first, output, members[..2]);
    assert members[..2] + [members[2]] == members[..3];
    first := AppendNamedString("message", event.message, first, output, members[..3]);
    assert members[..3] + [members[3]] == members[..4];
    first := AppendNamedString("thread_id", event.thread, first, output, members[..4]);
    assert members[..4] + [members[4]] == members;
  }

  method AppendLocation(location: Location, output: Output, ghost members: seq<Member>)
    requires members != [] && output.text == OpenObject(members)
    modifies output
    ensures output.text == OpenObject(members + LocationMembers(Some(location)))
  {
    ghost var more := LocationMembers(Some(location));
    var first := AppendNamedString("file", location.file, false, output, members);
    MembersGrow("{", members + more[..1], more[1]);
    assert members + [more[0]] == members + more[..1];
    AppendKey("line", first, output);
    first := false;
    output.Append(SignedDecimal(location.line));
    assert members + more[..1] + [more[1]] == members + more[..2];
    first := AppendNamedString("function", location.func, first, output, members + more[..2]);
    assert members + more[..2] + [more[2]] == members + more;
  }

  method AppendTail(event: Event, output: Output, ghost members: seq<Member>)
    requires members != [] && output.text == OpenObject(members)
    modifies output
    ensures output.text == OpenObject(members + TailMembers(event))
  {
    ghost var a := OptionMember("trace_id", event.trace);
    ghost var b := OptionMember("span_id", event.span);
    ghost var c := OptionMember("correlation_id", event.correlation);
    var first := AppendOptional("trace_id", event.trace, false, output, members);
    first := AppendOptional("span_id", event.span, first, output, members + a);
    first := AppendOptional("correlation_id", event.correlation, first, output, members + a + b);
    first := AppendNamedObject("fields", event.fields, first, output, members + a + b + c);
    assert members + a + b + c + [Member("fields", Object(FieldMembers(event.fields)))] == members + TailMembers(event);
  }

  /** to_json(event). */
  method ToJson(event: Event) returns (text: string)
    ensures text == Print(EventValue(event))
    ensures ParseText(text) == Some(EventValue(event))
    ensures NoControls(text)
  {
    var output := new Output();
    output.Push('{');
    var first := AppendHead(event, output);
    if event.location.Some? {
      AppendLocation(event.location.value, output, HeadMembers(event));
    }
    assert HeadMembers(event) + [] == HeadMembers(event);
    AppendTail(event, output, HeadMembers(event) + LocationMembers(event.location));
    output.Push('}');
    text := output.text;
    TextUndone(EventValue(event));
    PrintNoControls(EventValue(event));
  }

  function Record(event: Event): string {
    Print(EventValue(event)) + "\n"
  }

  method ToJsonLinesRecord(event: Event) returns (text: string)
    ensures text == Record(event)
  {
    text := ToJson(event);
    text := text + "\n";
  }
}
