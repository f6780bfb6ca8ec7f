/**
End to end: what a receiver makes of the bytes of any connection, in any run of concurrent writers with failures,
partial sends, reconnects and resends.
*/
module Delivery {
  import opened Text
  import opened Json
  import Events
  import opened EventReader
  import opened EventJson
  import opened Framing
  import opened Transport
  import Http

  // The JSON Lines sink: every writer sends the record of its event.

  ghost predicate SendRecords(s: State, eventOf: map<nat, Events.Event>) {
    forall w :: w in s.writers ==> w in eventOf && s.writers[w].payload == Record(eventOf[w])
  }

  function EventsOf(ws: seq<nat>, eventOf: map<nat, Events.Event>): seq<Events.Event>
    requires forall j :: 0 <= j < |ws| ==> ws[j] in eventOf
  {
    seq(|ws|, j requires 0 <= j < |ws| => eventOf[ws[j]])
  }

  lemma PartHasNoNewline(part: string, event: Events.Event)
    requires part < Record(event)
    ensures NoControls(part)
  {
    PrintNoControls(EventValue(event));
    assert forall k :: 0 <= k < |part| ==> part[k] == Print(EventValue(event))[k];
  }

  lemma TailHasNoNewline(s: State, i: nat, eventOf: map<nat, Events.Event>)
    requires SendRecords(s, eventOf) && i < |s.conns| && WellFramed(s, i)
    requires s.lock.Free? || !s.connected || i < |s.conns| - 1
    ensures NoControls(s.conns[i].tail)
  {
    var c := s.conns[i];
    if c.tail != "" {
      var v :| v in s.writers && s.writers[v].payload == c.whole;
      PartHasNoNewline(c.tail, eventOf[v]);
    }
  }

  lemma RecordPayloads(s: State, ws: seq<nat>, eventOf: map<nat, Events.Event>)
    requires SendRecords(s, eventOf) && forall j :: 0 <= j < |ws| ==> ws[j] in s.writers
    ensures Payloads(s.writers, ws) == Records(EventsOf(ws, eventOf))
  {
  }

  /**
  Unless it is being written to, a connection splits on newline into exactly the events of the writes that
  returned on it, each once and in order, and one unfinished piece that no newline ends.
  */
  lemma LinesReceived(states: seq<State>, retries: nat, k: nat, i: nat, eventOf: map<nat, Events.Event>)
    requires Run(states, retries) && k < |states| && i < |states[k].conns|
    requires SendRecords(states[k], eventOf)
    requires states[k].lock.Free? || !states[k].connected || i < |states[k].conns| - 1
    ensures var c := states[k].conns[i];
            var lines := Split(c.stream);
            && |lines| == |c.complete| + 1
            && lines[|c.complete|] == c.tail
            && forall j :: 0 <= j < |c.complete| ==>
                 c.complete[j] in eventOf && ReadEvent(lines[j]) == Some(EventMeaning(eventOf[c.complete[j]]))
  {
    var s, c := states[k], states[k].conns[i];
    RunStreams(states, retries, k, i);
    RunInv(states, retries, k);
    assert Accounts(c, s.writers);
    TailHasNoNewline(s, i, eventOf);
    RecordPayloads(s, c.complete, eventOf);
    StreamReads(EventsOf(c.complete, eventOf), c.tail);
  }

  // The OTLP sink: every writer posts its body.

  ghost predicate SendPosts(s: State, host: string, path: string, bodyOf: map<nat, string>) {
    forall w :: w in s.writers ==> w in bodyOf && s.writers[w].payload == Http.Post(host, path, bodyOf[w])
  }

  function BodiesOf(ws: seq<nat>, bodyOf: map<nat, string>): seq<string>
    requires forall j :: 0 <= j < |ws| ==> ws[j] in bodyOf
  {
    seq(|ws|, j requires 0 <= j < |ws| => bodyOf[ws[j]])
  }

  lemma {:induction false} PostPayloads(s: State, ws: seq<nat>, host: string, path: string, bodyOf: map<nat, string>)
    requires SendPosts(s, host, path, bodyOf) && forall j :: 0 <= j < |ws| ==> ws[j] in s.writers
    ensures Concat(Payloads(s.writers, ws)) == Http.Posts(host, path, BodiesOf(ws, bodyOf))
  {
    if ws != [] {
      PostPayloads(s, ws[1..], host, path, bodyOf);
      assert Payloads(s.writers, ws)[1..] == Payloads(s.writers, ws[1..]);
      assert BodiesOf(ws, bodyOf)[1..] == BodiesOf(ws[1..], bodyOf);
    }
  }

  lemma TailIsPartOfPost(s: State, i: nat, host: string, path: string, bodyOf: map<nat, string>) returns (next: string)
    requires SendPosts(s, host, path, bodyOf) && i < |s.conns| && WellFramed(s, i)
    requires s.lock.Free? || !s.connected || i < |s.conns| - 1
    ensures s.conns[i].tail < Http.Post(host, path, next)
  {
    var c := s.conns[i];
    next := "";
    if c.tail != "" {
      var v :| v in s.writers && s.writers[v].payload == c.whole;
      next := bodyOf[v];
    }
  }

  /**
  Unless it is being written to, Content-Length framing of a connection gives exactly the bodies of the writes that
  returned on it, each once and in order, and leaves the cut-off request at the end unread.
  */
  lemma PostsReceived(states: seq<State>, retries: nat, k: nat, i: nat, host: string, path: string,
                      bodyOf: map<nat, string>)
    requires Run(states, retries) && k < |states| && i < |states[k].conns|
    requires '\r' !in host && '\r' !in path && ' ' !in path
    requires SendPosts(states[k], host, path, bodyOf)
    requires states[k].lock.Free? || !states[k].connected || i < |states[k].conns| - 1
    ensures var c := states[k].conns[i];
            && (forall j :: 0 <= j < |c.complete| ==> c.complete[j] in bodyOf)
            && Http.ReadRequests(c.stream) == (Http.AllExpected(host, path, BodiesOf(c.complete, bodyOf)), c.tail)
  {
    var s, c := states[k], states[k].conns[i];
    RunStreams(states, retries, k, i);
    RunInv(states, retries, k);
    assert Accounts(c, s.writers);
    var next := TailIsPartOfPost(s, i, host, path, bodyOf);
    PostPayloads(s, c.complete, host, path, bodyOf);
    Http.PostsRead(host, path, BodiesOf(c.complete, bodyOf), c.tail, next);
  }
}
