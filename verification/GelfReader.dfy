/** A GELF server's view of a message: it parses the payload and looks its members up by name. */
module GelfReader {
  import opened Text
  import opened Json
  import opened Events
  import opened EventJson
  import opened EventReader
  import opened NetworkPayloads

  /** Additional fields are the members whose name starts with an underscore, without it. */
  datatype GelfReading = GelfReading(
    version: string, host: string, message: string, timestamp: string, level: Scalar,
    additional: seq<(string, Scalar)>)

  function ReadAdditional(members: seq<Member>): Option<seq<(string, Scalar)>> {
    if members == [] then Some([])
    else
      var rest := ReadAdditional(members[1..]);
      if rest.None? then None
      else if members[0].key == "" || members[0].key[0] != '_' then rest
      else
        var first := ReadScalar(members[0].value);
        if first.Some? then Some([(members[0].key[1..], first.value)] + rest.value) else None
  }

  function ReadToken(members: seq<Member>, key: string): Option<string> {
    var v := Lookup(members, key);
    if v.Some? && v.value.Number? then Some(v.value.token) else None
  }

  function ReadGelfMembers(members: seq<Member>): Option<GelfReading> {
    var version, host := ReadText(members, "version"), ReadText(members, "host");
    var message, timestamp := ReadText(members, "short_message"), ReadToken(members, "timestamp");
    var level, additional := ReadToken(members, "level"), ReadAdditional(members);
    if version.None? || host.None? || message.None? || timestamp.None? || level.None? || additional.None? then None
    else
      Some(GelfReading(version.value, host.value, message.value, timestamp.value, ReadNumber(level.value),
                       additional.value))
  }

  function ReadGelf(payload: string): Option<GelfReading> {
    var v := ParseText(payload);
    if v.Some? && v.value.Object? then ReadGelfMembers(v.value.members) else None
  }

  lemma HeadFirst(event: Event, host: string, i: nat)
    requires i < 5
    ensures Lookup(GelfHead(event, host) + GelfFields(event.fields), GelfHead(event, host)[i].key) ==
            Some(GelfHead(event, host)[i].value)
  {
    var head := GelfHead(event, host);
    LookupAt(head, i);
    LookupConcat(head, GelfFields(event.fields), head[i].key);
  }

  lemma {:induction false} FieldsAdditional(fields: seq<Field>)
    ensures ReadAdditional(GelfFields(fields)) == Some(FieldMeanings(fields))
  {
    var members := GelfFields(fields);
    if fields == [] {
      assert FieldMeanings(fields) == [];
    } else {
      FieldRead(fields[0].value);
      FieldsAdditional(fields[1..]);
      assert members[0].key[1..] == fields[0].key;
      assert members[1..] == GelfFields(fields[1..]);
      assert FieldMeanings(fields) == [(fields[0].key, Meaning(fields[0].value))] + FieldMeanings(fields[1..]);
    }
  }

  /** The first five members are not additional. */
  lemma {:induction false} SkipsPlain(plain: seq<Member>, rest: seq<Member>)
    requires forall i :: 0 <= i < |plain| ==> plain[i].key != "" && plain[i].key[0] != '_'
    ensures ReadAdditional(plain + rest) == ReadAdditional(rest)
  {
    if plain == [] {
      assert plain + rest == rest;
    } else {
      SkipsPlain(plain[1..], rest);
      assert (plain + rest)[1..] == plain[1..] + rest;
    }
  }

  lemma AdditionalRead(event: Event, host: string)
    ensures ReadAdditional(GelfHead(event, host) + GelfFields(event.fields)) ==
            Some([("logger", TextScalar(event.logger))] + FieldMeanings(event.fields))
  {
    var head, fields := GelfHead(event, host), GelfFields(event.fields);
    var logger := [Member("_logger", Str(event.logger))];
    FieldsAdditional(event.fields);
    assert (logger + fields)[1..] == fields;
    assert "_logger"[1..] == "logger";
    SkipsPlain(head[..5], logger + fields);
    assert head + fields == head[..5] + (logger + fields);
  }

  lemma HeadRead(event: Event, host: string)
    ensures var m := GelfHead(event, host) + GelfFields(event.fields);
            && ReadText(m, "version") == Some("1.1") && ReadText(m, "host") == Some(host)
            && ReadText(m, "short_message") == Some(event.message)
            && ReadToken(m, "timestamp") == Some(if event.seconds.Some? then event.seconds.value else "0.0")
            && ReadToken(m, "level") == Some(SignedDecimal(SyslogOf(LevelName(event.severity))))
  {
    HeadFirst(event, host, 0);
    HeadFirst(event, host, 1);
    HeadFirst(event, host, 2);
    HeadFirst(event, host, 3);
    HeadFirst(event, host, 4);
    GelfLevelByName(event.severity);
  }

  /**
  What a server reads in the payload of any event: version 1.1, the host, the message, the seconds or 0.0, the syslog
  severity of the level's name, and the logger and the fields as additional fields, in order.
  */
  lemma GelfRecovered(event: Event, host: string)
    ensures ReadGelf(Print(GelfValue(event, host))) ==
            Some(GelfReading("1.1", host, event.message, if event.seconds.Some? then event.seconds.value else "0.0",
                             IntScalar(SyslogOf(LevelName(event.severity))),
                             [("logger", TextScalar(event.logger))] + FieldMeanings(event.fields)))
  {
    TextUndone(GelfValue(event, host));
    HeadRead(event, host);
    AdditionalRead(event, host);
    IntegerRead(SyslogOf(LevelName(event.severity)));
  }
}
