/** Newline-delimited streams: JSON Lines, and the Elasticsearch bulk file with its pairs of lines. */
module Framing {
  import opened Text
  import opened Json
  import opened JsonText
  import opened Events
  import opened EventJson
  import opened EventReader

  // A consumer that knows nothing but the newline.

  function LineLength(s: string): (n: nat)
    ensures n <= |s| && '\n' !in s[..n]
    ensures n < |s| ==> s[n] == '\n'
  {
    if s == "" || s[0] == '\n' then 0
    else
      var n := LineLength(s[1..]);
      assert s[..n + 1] == [s[0]] + s[1..][..n];
      n + 1
  }

  /** The pieces between newlines, the one after the last newline included. */
  function Split(s: string): (lines: seq<string>)
    ensures lines != []
    decreases |s|
  {
    var n := LineLength(s);
    if n == |s| then [s] else [s[..n]] + Split(s[n + 1..])
  }

  /** Every line with its newline. */
  function Lines(lines: seq<string>): string {
    if lines == [] then "" else lines[0] + "\n" + Lines(lines[1..])
  }

  lemma {:induction false} LineEnds(line: string, rest: string)
    requires NoControls(line)
    ensures LineLength(line + "\n" + rest) == |line|
  {
    var s := line + "\n" + rest;
    if line != "" {
      LineEnds(line[1..], rest);
      assert s[1..] == line[1..] + "\n" + rest;
    }
  }

  /** Lines free of control bytes are exactly what a newline splitter finds. */
  lemma {:induction false} SplitLines(lines: seq<string>, rest: string)
    requires forall i :: 0 <= i < |lines| ==> NoControls(lines[i])
    requires Split(rest) == [rest]
    ensures Split(Lines(lines) + rest) == lines + [rest]
  {
    if lines == [] {
      assert Lines(lines) + rest == rest;
    } else {
      SplitLines(lines[1..], rest);
      var s := lines[0] + "\n" + (Lines(lines[1..]) + rest);
      Regroup(lines[0] + "\n", Lines(lines[1..]), rest);
      LineEnds(lines[0], Lines(lines[1..]) + rest);
      assert s[..|lines[0]|] == lines[0];
      assert s[|lines[0]| + 1..] == Lines(lines[1..]) + rest;
      assert [lines[0]] + (lines[1..] + [rest]) == lines + [rest];
    }
  }

  lemma {:induction false} LinesAppend(lines: seq<string>, line: string)
    ensures Lines(lines + [line]) == Lines(lines) + line + "\n"
  {
    if lines == [] {
      assert [line][1..] == [];
      assert "" + line == line && line + "\n" + "" == line + "\n";
    } else {
      LinesAppend(lines[1..], line);
      assert (lines + [line])[1..] == lines[1..] + [line];
      Regroup(lines[0] + "\n", Lines(lines[1..]) + line, "\n");
      Regroup(lines[0] + "\n", Lines(lines[1..]), line);
    }
  }

  // JSON Lines.

  function EventLines(events: seq<Event>): seq<string> {
    seq(|events|, i requires 0 <= i < |events| => Print(EventValue(events[i])))
  }

  function Records(events: seq<Event>): seq<string> {
    seq(|events|, i requires 0 <= i < |events| => Record(events[i]))
  }

  lemma RecordsRest(events: seq<Event>)
    requires events != []
    ensures Records(events) == [Record(events[0])] + Records(events[1..])
  {
  }

  lemma LinesRest(events: seq<Event>)
    requires events != []
    ensures EventLines(events) == [Print(EventValue(events[0]))] + EventLines(events[1..])
  {
  }

  lemma FirstAndRest(first: string, rest: seq<string>)
    ensures Concat([first] + rest) == first + Concat(rest) && Lines([first] + rest) == first + "\n" + Lines(rest)
  {
    assert ([first] + rest)[1..] == rest;
  }

  lemma {:induction false} RecordsAreLines(events: seq<Event>)
    ensures Concat(Records(events)) == Lines(EventLines(events))
  {
    if events != [] {
      RecordsAreLines(events[1..]);
      RecordsRest(events);
      LinesRest(events);
      FirstAndRest(Record(events[0]), Records(events[1..]));
      FirstAndRest(Print(EventValue(events[0])), EventLines(events[1..]));
    }
  }

  /**
  A stream of records, cut anywhere: splitting on newline gives exactly the records that are complete and the
  piece that is not, and each complete one reads back as its event.
  */
  lemma StreamReads(events: seq<Event>, cut: string)
    requires NoControls(cut)
    ensures var lines := Split(Concat(Records(events)) + cut);
            && |lines| == |events| + 1
            && lines[|events|] == cut
            && forall i :: 0 <= i < |events| ==>
                 lines[i] + "\n" == Record(events[i]) && ReadEvent(lines[i]) == Some(EventMeaning(events[i]))
  {
    RecordsAreLines(events);
    forall i | 0 <= i < |events|
      ensures NoControls(EventLines(events)[i]) && ReadEvent(EventLines(events)[i]) == Some(EventMeaning(events[i]))
    {
      PrintNoControls(EventValue(events[i]));
      EventRecovered(events[i]);
    }
    NoLineEnd(cut);
    SplitLines(EventLines(events), cut);
  }

  lemma {:induction false} NoLineEnd(s: string)
    requires NoControls(s)
    ensures LineLength(s) == |s| && Split(s) == [s]
  {
    if s != "" {
      NoLineEnd(s[1..]);
    }
  }

  // src/sinks/elastic_bulk_file_sink.cpp

  function ActionValue(index: string): Value {
    Object([Member("index", Object([Member("_index", Str(index))]))])
  }

  lemma {:induction false} PlainNames()
    ensures Plain("index") && Plain("_index")
  {
  }

  lemma {:induction false} ActionParts(index: string)
    ensures Print(ActionValue(index)) ==
            "{\"" + "index" + "\":" + ("{\"" + "_index" + "\":" + Quote(index) + "}") + "}"
  {
    PlainNames();
    OneMember("_index", Str(index));
    OneMember("index", Object([Member("_index", Str(index))]));
  }

  lemma {:induction false} ActionLiterals()
    ensures "{\"" + "index" + "\":" + ("{\"" + "_index" + "\":" + "\"") == "{\"index\":{\"_index\":\""
    ensures "\"" + "}" + "}" + "\n" == "\"}}\n"
  {
  }

  lemma {:induction false} ActionText(index: string)
    ensures "{\"index\":{\"_index\":\"" + Escape(index) + "\"}}\n" == Print(ActionValue(index)) + "\n"
  {
    ActionParts(index);
    ActionLiterals();
    Wrapped("{\"" + "index" + "\":", "{\"" + "_index" + "\":", Escape(index), "}", "\n");
  }

  lemma {:induction false} Wrapped(a: string, b: string, e: string, close: string, end: string)
    ensures a + (b + ("\"" + e + "\"") + close) + close + end == a + (b + "\"") + e + ("\"" + close + close + end)
  {
    Nest(b, "\"", e, "\"", close);
    Nest(a, b + "\"", e, "\"" + close, close);
    Regroup(a + (b + "\"") + e, "\"" + close + close, end);
  }

  method MakeActionLine(index: string) returns (line: string)
    ensures line == Print(ActionValue(index)) + "\n"
  {
    var output := new Output();
    output.Append("{\"index\":{\"_index\":\"");
    AppendEscaped(index, output);
    output.Append("\"}}\n");
    line := output.text;
    ActionText(index);
    assert "" + "{\"index\":{\"_index\":\"" == "{\"index\":{\"_index\":\"";
  }

  /** `action` before every one of `sources`. */
  function Pairs(action: string, sources: seq<string>): (lines: seq<string>)
    ensures |lines| == 2 * |sources|
  {
    if sources == [] then [] else [action, sources[0]] + Pairs(action, sources[1..])
  }

  lemma {:induction false} PairsAppend(action: string, sources: seq<string>, source: string)
    ensures Pairs(action, sources + [source]) == Pairs(action, sources) + [action, source]
  {
    if sources == [] {
      assert [source][1..] == [];
    } else {
      PairsAppend(action, sources[1..], source);
      assert (sources + [source])[1..] == sources[1..] + [source];
    }
  }

  lemma {:induction false} PairAt(action: string, sources: seq<string>, i: nat)
    requires i < |sources|
    ensures Pairs(action, sources)[2 * i] == action && Pairs(action, sources)[2 * i + 1] == sources[i]
  {
    if i > 0 {
      PairAt(action, sources[1..], i - 1);
    }
  }

  lemma {:induction false} PairsNoControls(action: string, sources: seq<string>)
    requires NoControls(action) && forall i :: 0 <= i < |sources| ==> NoControls(sources[i])
    ensures forall k :: 0 <= k < 2 * |sources| ==> NoControls(Pairs(action, sources)[k])
  {
    if sources != [] {
      PairsNoControls(action, sources[1..]);
      forall k | 0 <= k < 2 * |sources| ensures NoControls(Pairs(action, sources)[k]) {
        assert k >= 2 ==> Pairs(action, sources)[k] == Pairs(action, sources[1..])[k - 2];
      }
    }
  }

  /** The lines of a bulk body: an action before every event. */
  function BulkLines(index: string, events: seq<Event>): seq<string> {
    Pairs(Print(ActionValue(index)), EventLines(events))
  }

  lemma {:induction false} BulkLinesAppend(index: string, events: seq<Event>, event: Event)
    ensures BulkLines(index, events + [event]) ==
            BulkLines(index, events) + [Print(ActionValue(index)), Print(EventValue(event))]
  {
    assert EventLines(events + [event]) == EventLines(events) + [Print(EventValue(event))];
    PairsAppend(Print(ActionValue(index)), EventLines(events), Print(EventValue(event)));
  }

  class BulkFile {
    const indexName: string
    var stream: string
    ghost var before: string        // what the file held when it was opened
    ghost var events: seq<Event>    // events written since, all with the default formatter

    ghost predicate Valid()
      reads this
    {
      stream == before + Lines(BulkLines(indexName, events))
    }

    constructor (index: string, existing: string, append: bool)
      ensures Valid() && indexName == index && events == []
      ensures before == if append then existing else ""
    {
      indexName := index;
      stream := if append then existing else "";
      before := if append then existing else "";
      events := [];
    }

    method Write(event: Event)
      requires Valid()
      modifies this
      ensures Valid() && events == old(events) + [event] && before == old(before)
      ensures stream == old(stream) + (Print(ActionValue(indexName)) + "\n") + Record(event)
    {
      ghost var lines := BulkLines(indexName, events);
      var action := MakeActionLine(indexName);
      stream := stream + action;
      var record := ToJsonLinesRecord(event);
      stream := stream + record;
      events := events + [event];
      BulkLinesAppend(indexName, old(events), event);
      PairAppend(before, lines, Print(ActionValue(indexName)), Print(EventValue(event)));
    }

    /** A custom formatter's buffer goes out after the action line as it is. */
    method WriteFormatted(buffer: string)
      modifies this`stream
      ensures stream == old(stream) + (Print(ActionValue(indexName)) + "\n") + buffer
    {
      var action := MakeActionLine(indexName);
      stream := stream + action;
      stream := stream + buffer;
    }
  }

  lemma {:induction false} PairAppend(start: string, lines: seq<string>, a: string, b: string)
    ensures start + Lines(lines + [a, b]) == start + Lines(lines) + (a + "\n") + (b + "\n")
  {
    LinesAppend(lines, a);
    LinesAppend(lines + [a], b);
    assert lines + [a, b] == lines + [a] + [b];
    Regroup(Lines(lines), a, "\n");
    Regroup(Lines(lines) + (a + "\n"), b, "\n");
    Bracket(start, Lines(lines), a + "\n", b + "\n");
    Regroup(Lines(lines), a + "\n", b + "\n");
  }

  /** The index that an action line names, if it is an index action and nothing else. */
  function ReadAction(line: string): Option<string> {
    var v := ParseText(line);
    if v.None? || !v.value.Object? || |v.value.members| != 1 then None
    else
      var action := Lookup(v.value.members, "index");
      if action.Some? && action.value.Object? then ReadText(action.value.members, "_index") else None
  }

  lemma ActionRead(index: string)
    ensures ReadAction(Print(ActionValue(index))) == Some(index)
  {
    TextUndone(ActionValue(index));
    LookupAt(ActionValue(index).members, 0);
    LookupAt([Member("_index", Str(index))], 0);
  }

  /** An action line and the source line under it, as a consumer reads them. */
  predicate ReadsAsPair(action: string, source: string, index: string, event: Event) {
    ReadAction(action) == Some(index) && ReadEvent(source) == Some(EventMeaning(event))
  }

  lemma PairReads(index: string, event: Event)
    ensures ReadsAsPair(Print(ActionValue(index)), Print(EventValue(event)), index, event)
  {
    ActionRead(index);
    EventRecovered(event);
  }

  lemma BulkPairReads(index: string, events: seq<Event>, i: nat)
    requires i < |events|
    ensures ReadsAsPair(BulkLines(index, events)[2 * i], BulkLines(index, events)[2 * i + 1], index, events[i])
  {
    PairAt(Print(ActionValue(index)), EventLines(events), i);
    PairReads(index, events[i]);
  }

  lemma BulkClean(index: string, events: seq<Event>)
    ensures forall k :: 0 <= k < |BulkLines(index, events)| ==> NoControls(BulkLines(index, events)[k])
  {
    forall i | 0 <= i < |events| ensures NoControls(EventLines(events)[i]) {
      PrintNoControls(EventValue(events[i]));
    }
    PrintNoControls(ActionValue(index));
    PairsNoControls(Print(ActionValue(index)), EventLines(events));
  }

  lemma BulkSplits(index: string, events: seq<Event>)
    ensures Split(Lines(BulkLines(index, events))) == BulkLines(index, events) + [""]
  {
    BulkClean(index, events);
    NoLineEnd("");
    SplitLines(BulkLines(index, events), "");
    assert Lines(BulkLines(index, events)) + "" == Lines(BulkLines(index, events));
  }

  // Appending to a file that holds something already.

  /** The unfinished line at the end. */
  function Last(s: string): string {
    Split(s)[|Split(s)| - 1]
  }

  lemma {:induction false} LineLengthStays(a: string, b: string)
    requires LineLength(a) < |a|
    ensures LineLength(a + b) == LineLength(a)
  {
    if a[0] != '\n' {
      LineLengthStays(a[1..], b);
      assert (a + b)[1..] == a[1..] + b;
    }
  }

  lemma SplitStep(s: string, n: nat)
    requires n == LineLength(s) < |s|
    ensures Split(s) == [s[..n]] + Split(s[n + 1..])
  {
  }

  /** With a line in front on both sides. */
  lemma PutFirst(line: string, x: seq<string>, y: seq<string>, a: seq<string>, ab: seq<string>, xb: seq<string>)
    requires x != [] && a == [line] + x && ab == [line] + xb && xb == x[..|x| - 1] + y
    ensures ab == a[..|a| - 1] + y && a[|a| - 1] == x[|x| - 1]
  {
  }

  /** What is appended continues the unfinished line; the lines before it stay. */
  lemma {:induction false} SplitAppend(a: string, b: string)
    ensures Split(a + b) == Split(a)[..|Split(a)| - 1] + Split(Last(a) + b)
    decreases |a|
  {
    var n := LineLength(a);
    if n < |a| {
      var rest := a[n + 1..];
      LineLengthStays(a, b);
      SplitAppend(rest, b);
      assert (a + b)[..n] == a[..n] && (a + b)[n + 1..] == rest + b;
      SplitStep(a, n);
      SplitStep(a + b, n);
      PutFirst(a[..n], Split(rest), Split(Last(rest) + b), Split(a), Split(a + b), Split(rest + b));
      assert Last(a) == Last(rest);
    } else {
      assert Split(a) == [a] && [a][..0] + Split(a + b) == Split(a + b);
    }
  }

  /** The text whose lines these are. */
  function Joined(lines: seq<string>): string
    requires lines != []
  {
    if |lines| == 1 then lines[0] else lines[0] + "\n" + Joined(lines[1..])
  }

  lemma {:induction false} JoinSplit(s: string)
    ensures Joined(Split(s)) == s
    decreases |s|
  {
    var n := LineLength(s);
    if n < |s| {
      var rest := s[n + 1..];
      JoinSplit(rest);
      SplitStep(s, n);
      JoinedFirst(s[..n], Split(rest));
      assert s == s[..n] + "\n" + rest;
    }
  }

  lemma JoinedFirst(line: string, lines: seq<string>)
    requires lines != []
    ensures Joined([line] + lines) == line + "\n" + Joined(lines)
  {
    assert ([line] + lines)[1..] == lines;
  }

  lemma {:induction false} JoinLines(lines: seq<string>)
    ensures Joined(lines + [""]) == Lines(lines)
  {
    if lines != [] {
      JoinLines(lines[1..]);
      assert (lines + [""])[1..] == lines[1..] + [""];
    }
  }

  /** The lines that a sink adds to what the file held when it was opened. */
  function LinesFrom(before: string, added: string): (lines: seq<string>)
    ensures |lines| >= 1
  {
    SplitAppend(before, added);
    Split(before + added)[|Split(before)| - 1..]
  }

  /** They are the bulk lines if and only if the file was empty or ended with a newline. */
  lemma AppendsCleanlyIff(before: string, index: string, events: seq<Event>)
    ensures LinesFrom(before, Lines(BulkLines(index, events))) == BulkLines(index, events) + [""]
            <==> Last(before) == ""
  {
    var lines := BulkLines(index, events);
    SplitAppend(before, Lines(lines));
    BulkSplits(index, events);
    if Last(before) == "" {
      assert "" + Lines(lines) == Lines(lines);
    }
    if Split(Last(before) + Lines(lines)) == lines + [""] {
      JoinSplit(Last(before) + Lines(lines));
      JoinLines(lines);
      assert |Last(before)| == 0;
    }
    assert LinesFrom(before, Lines(lines)) == Split(Last(before) + Lines(lines));
  }

  /**
  What a sink writes to an empty file, or to one that ends with a newline, splits into strictly alternating action and
  source lines after the lines that were there.
  */
  lemma BulkReads(before: string, index: string, events: seq<Event>)
    requires Last(before) == ""
    ensures var lines := LinesFrom(before, Lines(BulkLines(index, events)));
            && |lines| == 2 * |events| + 1 && lines[2 * |events|] == ""
            && forall i :: 0 <= i < |events| ==> ReadsAsPair(lines[2 * i], lines[2 * i + 1], index, events[i])
  {
    AppendsCleanlyIff(before, index, events);
    forall i | 0 <= i < |events|
      ensures ReadsAsPair(BulkLines(index, events)[2 * i], BulkLines(index, events)[2 * i + 1], index, events[i])
    {
      BulkPairReads(index, events, i);
    }
  }
}
