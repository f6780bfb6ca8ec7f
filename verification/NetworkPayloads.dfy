/** src/sinks/network_payloads.cpp: the GELF 1.1 message of an event. */
module NetworkPayloads {
  import opened Text
  import opened Json
  import opened JsonText
  import opened Events
  import opened EventJson

  function ZeroSeconds(): (s: string)
    ensures IsNumber(s) && s == "0.0"
  {
    "0.0"
  }

  function Seconds(event: Event): NumberToken {
    if event.seconds.Some? then event.seconds.value else ZeroSeconds()
  }

  function GelfHead(event: Event, host: string): seq<Member> {
    [Member("version", Str("1.1")), Member("host", Str(host)), Member("short_message", Str(event.message)),
     Member("timestamp", Number(Seconds(event))), Member("level", Integer(GelfLevel(event.severity))),
     Member("_logger", Str(event.logger))]
  }

  /** Additional fields carry an underscore before their name. */
  function GelfFields(fields: seq<Field>): (members: seq<Member>)
    ensures |members| == |fields|
  {
    seq(|fields|, i requires 0 <= i < |fields| => Member("_" + fields[i].key, FieldJson(fields[i].value)))
  }

  function GelfValue(event: Event, host: string): Value {
    Object(GelfHead(event, host) + GelfFields(event.fields))
  }

  lemma UnderscoreEscape(key: string)
    ensures "\"_" + Escape(key) + "\":" == Quote("_" + key) + ":"
  {
    assert ("_" + key)[1..] == key;
    assert Escape("_" + key) == "_" + Escape(key);
    Regroup("\"", "_", Escape(key));
    assert "\"" + "_" == "\"_" && "\"" + ":" == "\":";
    Regroup("\"_" + Escape(key), "\"", ":");
  }

  lemma GelfFieldsGrow(start: string, head: seq<Member>, fields: seq<Field>, i: nat)
    requires i < |fields| && head != []
    ensures start + PrintMembers(head + GelfFields(fields[..i + 1])) ==
            start + PrintMembers(head + GelfFields(fields[..i])) + ",\"_" + Escape(fields[i].key) + "\":"
            + Print(FieldJson(fields[i].value))
  {
    var members, m := head + GelfFields(fields[..i]), Member("_" + fields[i].key, FieldJson(fields[i].value));
    assert head + GelfFields(fields[..i + 1]) == members + [m];
    MembersGrow(start, members, m);
    UnderscoreEscape(fields[i].key);
    UnderscoreKey(start + PrintMembers(members), Escape(fields[i].key), Quote(m.key));
  }

  lemma UnderscoreKey(open: string, key: string, quoted: string)
    requires "\"_" + key + "\":" == quoted + ":"
    ensures open + "," + quoted + ":" == open + ",\"_" + key + "\":"
  {
    Regroup(open + ",", quoted, ":");
    Regroup(open + ",", "\"_" + key, "\":");
    Regroup(open + ",", "\"_", key);
    Regroup(open, ",", "\"_");
    assert "," + "\"_" == ",\"_";
  }

  // The pieces as the source writes them: a literal closes one member and opens the next.

  lemma VersionKey()
    ensures "\"" + "version" + "\"" + ":" == "\"version\":"
    ensures Plain("version") && Plain("1.1")
  {
  }

  lemma VersionText()
    ensures "\"version\":" + ("\"" + "1.1" + "\"") == "\"version\":\"1.1\""
  {
  }

  lemma VersionMember()
    ensures PrintMember(Member("version", Str("1.1"))) == "\"version\":\"1.1\""
  {
    VersionKey();
    PlainEscape("version");
    PlainEscape("1.1");
    VersionText();
  }

  lemma HostKey()
    ensures StringKey(false, "host") == ",\"host\":\"" && Plain("host")
  {
  }

  lemma VersionAndHost()
    ensures "{" + "\"version\":\"1.1\"" + ",\"host\":\"" == "{\"version\":\"1.1\",\"host\":\""
  {
  }

  lemma HostLiteral()
    ensures "{\"version\":\"1.1\",\"host\":\"" ==
            "{" + PrintMembers([Member("version", Str("1.1"))]) + StringKey(false, "host")
  {
    VersionMember();
    HostKey();
    VersionAndHost();
  }

  lemma MessageKey()
    ensures StringKey(false, "short_message") == ",\"short_message\":\"" && Plain("short_message")
  {
  }

  lemma MessageLiteral()
    ensures "\",\"short_message\":\"" == "\"" + ",\"short_message\":\""
  {
  }

  lemma TimestampLiteral()
    ensures "\",\"timestamp\":" == "\"" + PlainKey(false, "timestamp")
    ensures Plain("timestamp")
  {
  }

  lemma LevelLiteral()
    ensures ",\"level\":" == PlainKey(false, "level")
    ensures Plain("level")
  {
  }

  lemma LoggerLiteral()
    ensures ",\"_logger\":\"" == StringKey(false, "_logger")
    ensures Plain("_logger")
  {
  }

  lemma HostGrows(host: string)
    ensures "" + "{\"version\":\"1.1\",\"host\":\"" + Escape(host) + "\"" ==
            "{" + PrintMembers([Member("version", Str("1.1"))] + [Member("host", Str(host))])
  {
    HostLiteral();
    HostKey();
    StringMembersGrow("{", [Member("version", Str("1.1"))], "host", host);
    assert "" + "{\"version\":\"1.1\",\"host\":\"" == "{\"version\":\"1.1\",\"host\":\"";
  }

  /** The last string written is not closed yet. */
  method AppendGelfHost(host: string, output: Output)
    requires output.text == ""
    modifies output
    ensures output.text + "\"" ==
            "{" + PrintMembers([Member("version", Str("1.1"))] + [Member("host", Str(host))])
  {
    output.Append("{\"version\":\"1.1\",\"host\":\"");
    AppendEscaped(host, output);
    HostGrows(host);
  }

  method AppendGelfMessage(message: string, output: Output, ghost members: seq<Member>)
    requires members != [] && output.text + "\"" == "{" + PrintMembers(members)
    modifies output
    ensures output.text + "\"" == "{" + PrintMembers(members + [Member("short_message", Str(message))])
  {
    MessageKey();
    MessageLiteral();
    Regroup(output.text, "\"", StringKey(false, "short_message"));
    output.Append("\",\"short_message\":\"");
    AppendEscaped(message, output);
    StringMembersGrow("{", members, "short_message", message);
  }

  method AppendGelfNumbers(event: Event, output: Output, ghost members: seq<Member>)
    requires members != [] && output.text + "\"" == "{" + PrintMembers(members)
    modifies output
    ensures output.text == "{" + PrintMembers(
      members + [Member("timestamp", Number(Seconds(event))), Member("level", Integer(GelfLevel(event.severity)))])
  {
    ghost var t, l := Member("timestamp", Number(Seconds(event))), Member("level", Integer(GelfLevel(event.severity)));
    TimestampLiteral();
    Regroup(output.text, "\"", PlainKey(false, "timestamp"));
    output.Append("\",\"timestamp\":");
    if event.seconds.Some? {
      output.Append(event.seconds.value);
    } else {
      output.Append("0.0");
    }
    PlainMembersGrow("{", members, "timestamp", t.value);
    LevelLiteral();
    output.Append(",\"level\":");
    output.Append(Decimal(GelfLevel(event.severity)));
    PlainMembersGrow("{", members + [t], "level", l.value);
    assert members + [t] + [l] == members + [t, l];
  }

  method AppendGelfLogger(event: Event, output: Output, ghost members: seq<Member>)
    requires members != [] && output.text == "{" + PrintMembers(members)
    modifies output
    ensures output.text == "{" + PrintMembers(members + [Member("_logger", Str(event.logger))])
  {
    LoggerLiteral();
    output.Append(",\"_logger\":\"");
    AppendEscaped(event.logger, output);
    output.Push('"');
    StringMembersGrow("{", members, "_logger", event.logger);
  }

  lemma SixSlices(a: Member, b: Member, c: Member, d: Member, e: Member, f: Member)
    ensures var head := [a, b, c, d, e, f];
            && head[..2] == [a] + [b] && head[..3] == head[..2] + [c]
            && head[..5] == head[..3] + [d, e] && head == head[..5] + [f]
  {
  }

  lemma GelfHeadSlices(event: Event, host: string)
    ensures var head := GelfHead(event, host);
            && head[..2] == [Member("version", Str("1.1"))] + [Member("host", Str(host))]
            && head[..3] == head[..2] + [Member("short_message", Str(event.message))]
            && head[..5] == head[..3] + [Member("timestamp", Number(Seconds(event))),
                                         Member("level", Integer(GelfLevel(event.severity)))]
            && head == head[..5] + [Member("_logger", Str(event.logger))]
  {
    SixSlices(Member("version", Str("1.1")), Member("host", Str(host)), Member("short_message", Str(event.message)),
              Member("timestamp", Number(Seconds(event))), Member("level", Integer(GelfLevel(event.severity))),
              Member("_logger", Str(event.logger)));
  }

  method AppendGelfHead(event: Event, host: string, output: Output)
    requires output.text == ""
    modifies output
    ensures output.text == "{" + PrintMembers(GelfHead(event, host))
  {
    ghost var head := GelfHead(event, host);
    GelfHeadSlices(event, host);
    AppendGelfHost(host, output);
    AppendGelfMessage(event.message, output, head[..2]);
    AppendGelfNumbers(event, output, head[..3]);
    AppendGelfLogger(event, output, head[..5]);
  }

  method AppendGelfField(field: Field, output: Output)
    modifies output
    ensures output.text == old(output.text) + ",\"_" + Escape(field.key) + "\":" + Print(FieldJson(field.value))
  {
    output.Append(",\"_");
    AppendEscaped(field.key, output);
    output.Append("\":");
    var value := FieldToJson(field.value);
    output.Append(value);
  }

  method AppendGelfFields(fields: seq<Field>, output: Output, ghost head: seq<Member>)
    requires head != [] && output.text == "{" + PrintMembers(head)
    modifies output
    ensures output.text == "{" + PrintMembers(head + GelfFields(fields))
  {
    assert head + GelfFields(fields[..0]) == head;
    for i := 0 to |fields|
      invariant output.text == "{" + PrintMembers(head + GelfFields(fields[..i]))
    {
      GelfFieldsGrow("{", head, fields, i);
      AppendGelfField(fields[i], output);
    }
    assert fields[..|fields|] == fields;
  }

  /** The payload is a JSON text, and a strict parser finds in it exactly the message's members in order. */
  method MakeGelfPayload(event: Event, host: string) returns (payload: string)
    ensures payload == Print(GelfValue(event, host))
    ensures ParseText(payload) == Some(GelfValue(event, host))
  {
    var output := new Output();
    AppendGelfHead(event, host, output);
    AppendGelfFields(event.fields, output, GelfHead(event, host));
    output.Push('}');
    payload := output.text;
    TextUndone(GelfValue(event, host));
  }
}
