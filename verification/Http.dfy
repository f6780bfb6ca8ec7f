/**
Requests on a kept-alive connection: make_http_post of src/sinks/otlp_http_sink.cpp against a receiver that
frames by Content-Length (sections 2.1, 3, 5 and 6.2 of RFC 9112).
*/
module Http {
  import opened Text
  import opened Json

  const CRLF: string := "\r\n"

  // The receiver.

  datatype Request = Request(verb: string, target: string, version: string, fields: seq<(string, string)>, body: string)

  /** The first line and what follows its line end. */
  function ReadLine(s: string): (r: Parsed<string>)
    ensures r.Done? ==> |r.value| + 2 + |r.rest| == |s| && s == r.value + CRLF + r.rest
  {
    if |s| < 2 then Fail
    else if s[0] == '\r' && s[1] == '\n' then
      assert s == "" + CRLF + s[2..];
      Done("", s[2..])
    else Prepend([s[0]], ReadLine(s[1..]))
  }

  /** Lines up to the empty one. */
  function ReadHead(s: string): (r: Parsed<seq<string>>)
    ensures r.Done? ==> |r.rest| < |s|
    decreases |s|
  {
    match ReadLine(s)
    case Fail => Fail
    case Done(line, rest) =>
      if line == "" then Done([], rest)
      else
        match ReadHead(rest)
        case Fail => Fail
        case Done(lines, after) => Done([line] + lines, after)
  }

  function Find(s: string, c: char): (n: nat)
    ensures n <= |s| && c !in s[..n]
    ensures n < |s| ==> s[n] == c
  {
    if s == "" || s[0] == c then 0
    else
      var n := Find(s[1..], c);
      assert s[..n + 1] == [s[0]] + s[1..][..n];
      n + 1
  }

  predicate IsBlank(c: char) {
    c == ' ' || c == '\t'
  }

  /** Without the white space around it. */
  function Trim(s: string): string
    decreases |s|
  {
    if s != "" && IsBlank(s[0]) then Trim(s[1..])
    else if s != "" && IsBlank(s[|s| - 1]) then Trim(s[..|s| - 1])
    else s
  }

  /** A field line: name, colon, value. */
  function ReadField(line: string): Option<(string, string)> {
    var n := Find(line, ':');
    if 0 < n < |line| then Some((line[..n], Trim(line[n + 1..]))) else None
  }

  function ReadFields(lines: seq<string>): Option<seq<(string, string)>> {
    if lines == [] then Some([])
    else
      var first, rest := ReadField(lines[0]), ReadFields(lines[1..]);
      if first.Some? && rest.Some? then Some([first.value] + rest.value) else None
  }

  function LowerChar(c: char): char {
    if 'A' <= c <= 'Z' then (c as int + 32) as char else c
  }

  predicate SameName(a: string, b: string) {
    |a| == |b| && forall i :: 0 <= i < |a| ==> LowerChar(a[i]) == LowerChar(b[i])
  }

  function FieldValues(fields: seq<(string, string)>, name: string): seq<string> {
    if fields == [] then []
    else (if SameName(fields[0].0, name) then [fields[0].1] else []) + FieldValues(fields[1..], name)
  }

  /** The one Content-Length; anything else is refused. */
  function BodyLength(fields: seq<(string, string)>): Option<nat> {
    var values := FieldValues(fields, "Content-Length");
    if |values| == 1 && values[0] != "" && AllDigits(values[0]) then Some(DigitsValue(values[0])) else None
  }

  /** verb SP target SP version */
  function ReadRequestLine(line: string): Option<(string, string, string)> {
    var n := Find(line, ' ');
    if n == |line| then None
    else
      var after := line[n + 1..];
      var k := Find(after, ' ');
      if k == |after| then None else Some((line[..n], after[..k], after[k + 1..]))
  }

  /** What a complete head says: the request without its body, and the length of the body. */
  function ReadHeadLines(lines: seq<string>): Option<(Request, nat)> {
    if lines == [] then None
    else
      var start, fields := ReadRequestLine(lines[0]), ReadFields(lines[1..]);
      if start.None? || fields.None? then None
      else
        var n := BodyLength(fields.value);
        if n.None? then None
        else Some((Request(start.value.0, start.value.1, start.value.2, fields.value, ""), n.value))
  }

  /** One request off the front of the stream, if all of it has arrived. */
  function ReadRequest(s: string): (r: Parsed<Request>)
    ensures r.Done? ==> |r.rest| < |s|
  {
    match ReadHead(s)
    case Fail => Fail
    case Done(lines, rest) =>
      var head := ReadHeadLines(lines);
      if head.None? || |rest| < head.value.1 then Fail
      else Done(head.value.0.(body := rest[..head.value.1]), rest[head.value.1..])
  }

  /** Every complete request in the stream, and what is left. */
  function ReadRequests(s: string): (seq<Request>, string)
    decreases |s|
  {
    match ReadRequest(s)
    case Fail => ([], s)
    case Done(request, rest) =>
      var more := ReadRequests(rest);
      ([request] + more.0, more.1)
  }

  // The sender.

  function HeadLines(host: string, path: string, n: nat): seq<string> {
    ["POST " + path + " HTTP/1.1", "Host: " + host, "Content-Type: application/json",
     "Content-Length: " + Decimal(n), "Connection: keep-alive"]
  }

  function CrlfLines(lines: seq<string>): string {
    if lines == [] then "" else lines[0] + CRLF + CrlfLines(lines[1..])
  }

  function Post(host: string, path: string, body: string): string {
    CrlfLines(HeadLines(host, path, |body|)) + CRLF + body
  }

  function Posts(host: string, path: string, bodies: seq<string>): string {
    if bodies == [] then "" else Post(host, path, bodies[0]) + Posts(host, path, bodies[1..])
  }

  lemma {:induction false} CrlfAppend(lines: seq<string>, line: string)
    ensures CrlfLines(lines + [line]) == CrlfLines(lines) + (line + CRLF)
  {
    if lines == [] {
      assert [line][1..] == [];
      assert line + CRLF + "" == "" + (line + CRLF);
    } else {
      CrlfAppend(lines[1..], line);
      assert (lines + [line])[1..] == lines[1..] + [line];
      Regroup(lines[0] + CRLF, CrlfLines(lines[1..]), line + CRLF);
    }
  }

  lemma HeadLiterals()
    ensures "Content-Type: application/json\r\n" == "Content-Type: application/json" + CRLF
    ensures "Connection: keep-alive\r\n" == "Connection: keep-alive" + CRLF
    ensures " HTTP/1.1\r\n" == " HTTP/1.1" + CRLF
  {
  }

  method MakeHttpPost(host: string, path: string, body: string) returns (req: string)
    ensures req == Post(host, path, body)
  {
    ghost var lines := HeadLines(host, path, |body|);
    HeadLiterals();
    req := "POST " + path + " HTTP/1.1\r\n";
    Regroup("POST " + path, " HTTP/1.1", CRLF);
    CrlfAppend([], lines[0]);
    assert [] + [lines[0]] == lines[..1] && "" + (lines[0] + CRLF) == lines[0] + CRLF;
    req := req + ("Host: " + host + "\r\n");
    CrlfAppend(lines[..1], lines[1]);
    assert lines[..1] + [lines[1]] == lines[..2];
    req := req + "Content-Type: application/json\r\n";
    CrlfAppend(lines[..2], lines[2]);
    assert lines[..2] + [lines[2]] == lines[..3];
    req := req + ("Content-Length: " + Decimal(|body|) + "\r\n");
    CrlfAppend(lines[..3], lines[3]);
    assert lines[..3] + [lines[3]] == lines[..4];
    req := req + "Connection: keep-alive\r\n";
    CrlfAppend(lines[..4], lines[4]);
    assert lines[..4] + [lines[4]] == lines;
    req := req + "\r\n";
    req := req + body;
  }

  // Reading back.

  lemma {:induction false} LineRead(line: string, rest: string)
    requires '\r' !in line
    ensures ReadLine(line + CRLF + rest) == Done(line, rest)
  {
    var s := line + CRLF + rest;
    if line == "" {
      assert s[2..] == rest;
    } else {
      LineRead(line[1..], rest);
      assert s[1..] == line[1..] + CRLF + rest;
      assert [line[0]] + line[1..] == line;
    }
  }

  lemma {:induction false} HeadRead(lines: seq<string>, rest: string)
    requires forall i :: 0 <= i < |lines| ==> '\r' !in lines[i] && lines[i] != ""
    ensures ReadHead(CrlfLines(lines) + CRLF + rest) == Done(lines, rest)
  {
    if lines == [] {
      assert CrlfLines(lines) + CRLF + rest == "" + CRLF + rest;
      LineRead("", rest);
    } else {
      var after := CrlfLines(lines[1..]) + CRLF + rest;
      HeadRead(lines[1..], rest);
      LineRead(lines[0], after);
      Regroup(lines[0] + CRLF, CrlfLines(lines[1..]), CRLF);
      Regroup(lines[0] + CRLF, CrlfLines(lines[1..]) + CRLF, rest);
      assert [lines[0]] + lines[1..] == lines;
    }
  }

  lemma {:induction false} Found(a: string, c: char, rest: string)
    requires c !in a
    ensures Find(a + [c] + rest, c) == |a|
  {
    if a == "" {
      assert a + [c] + rest == [c] + rest;
    } else {
      Found(a[1..], c, rest);
      assert (a + [c] + rest)[1..] == a[1..] + [c] + rest;
    }
  }

  lemma TrimLeft(value: string)
    ensures Trim(" " + value) == Trim(value)
  {
    assert (" " + value)[1..] == value;
  }

  lemma FieldLine(name: string, value: string)
    requires name != "" && ':' !in name
    ensures ReadField(name + ":" + (" " + value)) == Some((name, Trim(value)))
  {
    var line := name + ":" + (" " + value);
    Found(name, ':', " " + value);
    assert line[..|name|] == name && line[|name| + 1..] == " " + value;
    TrimLeft(value);
  }

  lemma RequestLine(path: string)
    requires ' ' !in path
    ensures ReadRequestLine("POST " + path + " HTTP/1.1") == Some(("POST", path, "HTTP/1.1"))
  {
    var line, after := "POST " + path + " HTTP/1.1", path + " " + "HTTP/1.1";
    assert line == "POST" + " " + after;
    Found("POST", ' ', after);
    assert line[..4] == "POST" && line[5..] == after;
    Found(path, ' ', "HTTP/1.1");
    assert after[..|path|] == path && after[|path| + 1..] == "HTTP/1.1";
  }

  function PostFields(host: string, n: nat): seq<(string, string)> {
    [("Host", Trim(host)), ("Content-Type", "application/json"), ("Content-Length", Decimal(n)),
     ("Connection", "keep-alive")]
  }

  lemma HostField(host: string)
    ensures ReadField("Host: " + host) == Some(("Host", Trim(host)))
  {
    FieldLine("Host", host);
    assert "Host: " + host == "Host" + ":" + (" " + host);
  }

  /** Nothing to trim. */
  predicate Tight(value: string) {
    value != "" && !IsBlank(value[0]) && !IsBlank(value[|value| - 1])
  }

  lemma TypeLine()
    ensures "Content-Type: application/json" == "Content-Type" + ":" + (" " + "application/json")
    ensures Tight("application/json")
  {
  }

  lemma TypeField()
    ensures ReadField("Content-Type: application/json") == Some(("Content-Type", "application/json"))
  {
    TypeLine();
    FieldLine("Content-Type", "application/json");
  }

  lemma LengthLine(digits: string)
    ensures "Content-Length: " + digits == "Content-Length" + ":" + (" " + digits)
  {
    assert "Content-Length: " == "Content-Length" + ":" + " ";
    Regroup("Content-Length" + ":", " ", digits);
  }

  lemma DecimalTight(n: nat)
    ensures Trim(Decimal(n)) == Decimal(n)
  {
    assert IsDigit(Decimal(n)[0]) && IsDigit(Decimal(n)[|Decimal(n)| - 1]);
  }

  lemma LengthField(n: nat)
    ensures ReadField("Content-Length: " + Decimal(n)) == Some(("Content-Length", Decimal(n)))
  {
    LengthLine(Decimal(n));
    DecimalTight(n);
    FieldLine("Content-Length", Decimal(n));
  }

  lemma ConnectionLine()
    ensures "Connection: keep-alive" == "Connection" + ":" + (" " + "keep-alive")
    ensures Tight("keep-alive")
  {
  }

  lemma ConnectionField()
    ensures ReadField("Connection: keep-alive") == Some(("Connection", "keep-alive"))
  {
    ConnectionLine();
    FieldLine("Connection", "keep-alive");
  }

  lemma {:induction false} FieldsRead(lines: seq<string>, fields: seq<(string, string)>)
    requires |lines| == |fields| && forall i :: 0 <= i < |lines| ==> ReadField(lines[i]) == Some(fields[i])
    ensures ReadFields(lines) == Some(fields)
  {
    if lines != [] {
      FieldsRead(lines[1..], fields[1..]);
      assert [fields[0]] + fields[1..] == fields;
    }
  }

  lemma FourFields(a: string, b: string, c: string, d: string, p: (string, string), q: (string, string),
                   r: (string, string), t: (string, string))
    requires ReadField(a) == Some(p) && ReadField(b) == Some(q) && ReadField(c) == Some(r) && ReadField(d) == Some(t)
    ensures ReadFields([a, b, c, d]) == Some([p, q, r, t])
  {
    FieldsRead([a, b, c, d], [p, q, r, t]);
  }

  lemma HeadFields(host: string, path: string, n: nat)
    ensures HeadLines(host, path, n)[1..] == ["Host: " + host, "Content-Type: application/json",
                                              "Content-Length: " + Decimal(n), "Connection: keep-alive"]
  {
  }

  lemma PostFieldsRead(host: string, path: string, n: nat)
    ensures ReadFields(HeadLines(host, path, n)[1..]) == Some(PostFields(host, n))
  {
    HostField(host);
    TypeField();
    LengthField(n);
    ConnectionField();
    HeadFields(host, path, n);
    FourFields("Host: " + host, "Content-Type: application/json", "Content-Length: " + Decimal(n),
               "Connection: keep-alive", ("Host", Trim(host)), ("Content-Type", "application/json"),
               ("Content-Length", Decimal(n)), ("Connection", "keep-alive"));
  }

  lemma {:induction false} OneLength(a: seq<(string, string)>, field: (string, string), b: seq<(string, string)>,
                                     name: string)
    requires forall i :: 0 <= i < |a| ==> !SameName(a[i].0, name)
    requires forall i :: 0 <= i < |b| ==> !SameName(b[i].0, name)
    requires SameName(field.0, name)
    ensures FieldValues(a + [field] + b, name) == [field.1]
  {
    if a == [] {
      NoLength(b, name);
      assert (a + [field] + b)[1..] == b;
    } else {
      OneLength(a[1..], field, b, name);
      assert (a + [field] + b)[1..] == a[1..] + [field] + b;
    }
  }

  lemma {:induction false} NoLength(fields: seq<(string, string)>, name: string)
    requires forall i :: 0 <= i < |fields| ==> !SameName(fields[i].0, name)
    ensures FieldValues(fields, name) == []
  {
    if fields != [] {
      NoLength(fields[1..], name);
    }
  }

  lemma PostLength(host: string, n: nat)
    ensures BodyLength(PostFields(host, n)) == Some(n)
  {
    var fields := PostFields(host, n);
    OneLength(fields[..2], fields[2], fields[3..], "Content-Length");
    assert fields[..2] + [fields[2]] + fields[3..] == fields;
    DecimalValue(n);
  }

  lemma PostHeadRead(host: string, path: string, n: nat)
    requires ' ' !in path
    ensures ReadHeadLines(HeadLines(host, path, n)) ==
            Some((Request("POST", path, "HTTP/1.1", PostFields(host, n), ""), n))
  {
    RequestLine(path);
    PostFieldsRead(host, path, n);
    PostLength(host, n);
  }

  lemma HeadLinesClean(host: string, path: string, n: nat)
    requires '\r' !in host && '\r' !in path
    ensures forall i :: 0 <= i < 5 ==> '\r' !in HeadLines(host, path, n)[i] && HeadLines(host, path, n)[i] != ""
  {
    assert forall k :: 0 <= k < |Decimal(n)| ==> IsDigit(Decimal(n)[k]);
  }

  /** What a receiver should make of one request. */
  function Expected(host: string, path: string, body: string): Request {
    Request("POST", path, "HTTP/1.1", PostFields(host, |body|), body)
  }

  /** One request, whatever its body holds and whatever follows it. */
  lemma PostRead(host: string, path: string, body: string, rest: string)
    requires '\r' !in host && '\r' !in path && ' ' !in path
    ensures ReadRequest(Post(host, path, body) + rest) == Done(Expected(host, path, body), rest)
  {
    var lines := HeadLines(host, path, |body|);
    HeadLinesClean(host, path, |body|);
    HeadRead(lines, body + rest);
    Regroup(CrlfLines(lines) + CRLF, body, rest);
    PostHeadRead(host, path, |body|);
    assert (body + rest)[..|body|] == body && (body + rest)[|body|..] == rest;
  }

  lemma {:induction false} OneField(fields: seq<(string, string)>, i: nat, name: string)
    requires i < |fields| && SameName(fields[i].0, name)
    requires forall k :: 0 <= k < |fields| && k != i ==> !SameName(fields[k].0, name)
    ensures FieldValues(fields, name) == [fields[i].1]
  {
    OneLength(fields[..i], fields[i], fields[i + 1..], name);
    assert fields[..i] + [fields[i]] + fields[i + 1..] == fields;
  }

  lemma OtherNames()
    ensures SameName("Host", "host") && !SameName("Content-Type", "host")
    ensures !SameName("Content-Length", "host") && !SameName("Connection", "host")
    ensures !SameName("Host", "content-type") && SameName("Content-Type", "content-type")
    ensures !SameName("Content-Length", "content-type") && !SameName("Connection", "content-type")
  {
  }

  lemma PostFieldsMean(host: string, n: nat)
    ensures FieldValues(PostFields(host, n), "host") == [Trim(host)]
    ensures FieldValues(PostFields(host, n), "content-type") == ["application/json"]
  {
    OtherNames();
    OneField(PostFields(host, n), 0, "host");
    OneField(PostFields(host, n), 1, "content-type");
  }

  /** What the request says: to whom, for what, which body. */
  lemma PostMeans(host: string, path: string, body: string, rest: string)
    requires '\r' !in host && '\r' !in path && ' ' !in path
    ensures ReadRequest(Post(host, path, body) + rest).Done?
    ensures var r := ReadRequest(Post(host, path, body) + rest).value;
            && r.verb == "POST" && r.target == path && r.version == "HTTP/1.1" && r.body == body
            && FieldValues(r.fields, "host") == [Trim(host)]
            && FieldValues(r.fields, "content-type") == ["application/json"]
  {
    PostRead(host, path, body, rest);
    PostFieldsMean(host, |body|);
  }

  // A receiver never reads less or other than what it would have read with more of the stream at hand.

  lemma {:induction false} LineStable(s: string, more: string)
    requires ReadLine(s).Done?
    ensures ReadLine(s + more) == Done(ReadLine(s).value, ReadLine(s).rest + more)
  {
    if s[0] == '\r' && s[1] == '\n' {
      assert (s + more)[2..] == s[2..] + more;
    } else {
      LineStable(s[1..], more);
      assert (s + more)[1..] == s[1..] + more;
    }
  }

  lemma {:induction false} HeadStable(s: string, more: string)
    requires ReadHead(s).Done?
    ensures ReadHead(s + more) == Done(ReadHead(s).value, ReadHead(s).rest + more)
    decreases |s|
  {
    LineStable(s, more);
    if ReadLine(s).value != "" {
      HeadStable(ReadLine(s).rest, more);
    }
  }

  lemma RequestStable(s: string, more: string)
    requires ReadRequest(s).Done?
    ensures ReadRequest(s + more) == Done(ReadRequest(s).value, ReadRequest(s).rest + more)
  {
    HeadStable(s, more);
    var lines, rest := ReadHead(s).value, ReadHead(s).rest;
    var n := ReadHeadLines(lines).value.1;
    assert (rest + more)[..n] == rest[..n] && (rest + more)[n..] == rest[n..] + more;
  }

  /** If a reader of part of a text is satisfied, and one of all of it has nothing left, the part was all. */
  lemma SatisfiedByAll(part: string, more: string)
    requires ReadRequest(part).Done? && ReadRequest(part + more).Done? && ReadRequest(part + more).rest == ""
    ensures more == ""
  {
    RequestStable(part, more);
  }

  /** A cut-off request is not taken for a whole one. */
  lemma CutWaits(host: string, path: string, body: string, cut: string)
    requires '\r' !in host && '\r' !in path && ' ' !in path
    requires cut < Post(host, path, body)
    ensures ReadRequest(cut) == Fail
  {
    var more := Post(host, path, body)[|cut|..];
    assert cut + more == Post(host, path, body);
    assert Post(host, path, body) + "" == Post(host, path, body);
    PostRead(host, path, body, "");
    if ReadRequest(cut).Done? {
      SatisfiedByAll(cut, more);
      assert false;
    }
  }

  function AllExpected(host: string, path: string, bodies: seq<string>): seq<Request> {
    if bodies == [] then [] else [Expected(host, path, bodies[0])] + AllExpected(host, path, bodies[1..])
  }

  /**
  Any number of requests, then the beginning of one more or nothing: Content-Length framing finds exactly the
  complete ones, each with its own body, whatever bytes the bodies contain, and leaves the rest alone.
  */
  lemma {:induction false} PostsRead(host: string, path: string, bodies: seq<string>, cut: string, next: string)
    requires '\r' !in host && '\r' !in path && ' ' !in path
    requires cut < Post(host, path, next)
    ensures ReadRequests(Posts(host, path, bodies) + cut) == (AllExpected(host, path, bodies), cut)
  {
    if bodies == [] {
      assert Posts(host, path, bodies) + cut == cut;
      CutWaits(host, path, next, cut);
    } else {
      PostsRead(host, path, bodies[1..], cut, next);
      var rest := Posts(host, path, bodies[1..]) + cut;
      PostRead(host, path, bodies[0], rest);
      Regroup(Post(host, path, bodies[0]), Posts(host, path, bodies[1..]), cut);
    }
  }

  lemma {:induction false} ExpectedBodies(host: string, path: string, bodies: seq<string>)
    ensures |AllExpected(host, path, bodies)| == |bodies|
    ensures forall i :: 0 <= i < |bodies| ==>
      var r := AllExpected(host, path, bodies)[i];
      r.verb == "POST" && r.target == path && r.version == "HTTP/1.1" && r.body == bodies[i]
  {
    if bodies != [] {
      ExpectedBodies(host, path, bodies[1..]);
    }
  }
}
