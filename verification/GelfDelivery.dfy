/**
End to end for GELF: what a server makes of the datagrams of any number of writes, with failures and resends, in
whatever order the network delivers them and however often.
*/
module GelfDelivery {
  import opened Json
  import opened Words
  import opened GelfChunks
  import opened GelfReceiver
  import opened GelfSink
  import opened Events
  import opened NetworkPayloads

  /** One `write`: how many chunks each failed round got out, and whether it returned. */
  datatype Call = Call(payload: string, id: nat, rounds: seq<nat>, returned: bool)

  /** What one `write` puts on the wire: the promise of `GelfSink.Sink.Write`. */
  function SentBy(call: Call, maxChunk: nat): seq<string>
    requires HEADER < maxChunk
  {
    var chunks := Outcome(call.payload, maxChunk, call.id).parts;
    Resent(chunks, call.rounds) + if call.returned then chunks else []
  }

  /** Everything one sink has put on the wire. */
  function Wire(calls: seq<Call>, maxChunk: nat): seq<string>
    requires HEADER < maxChunk
  {
    if calls == [] then [] else Wire(calls[..|calls| - 1], maxChunk) + SentBy(calls[|calls| - 1], maxChunk)
  }

  /** The calls on one sink, by their effect on its client; a sink's wire is the wire of its calls. */
  method WriteNext(sink: Sink, maxChunk: nat, payload: string, id: nat, ghost calls: seq<Call>)
      returns (end: Ending, ghost now: seq<Call>)
    requires HEADER < maxChunk < WORD && |payload| < WORD / 2 && id < WORD
    requires sink.client.sent == Wire(calls, maxChunk)
    modifies sink`attempts, sink`failures, sink`reconnects, sink.client
    ensures sink.client.sent == Wire(now, maxChunk) && |now| == |calls| + 1 && now[..|calls|] == calls
    ensures var call := now[|calls|]; call.payload == payload && call.id == id && call.returned == end.Returned?
  {
    ghost var rounds, used;
    end, rounds, used := sink.Write(payload, maxChunk, id);
    ghost var call := Call(payload, id, rounds, end.Returned?);
    now := calls + [call];
    assert now[..|now| - 1] == calls;
    SentTogether(Wire(calls, maxChunk), call, maxChunk);
  }

  lemma SentTogether(before: seq<string>, call: Call, maxChunk: nat)
    requires HEADER < maxChunk
    ensures var chunks := Outcome(call.payload, maxChunk, call.id).parts;
            before + Resent(chunks, call.rounds) + (if call.returned then chunks else []) ==
            before + SentBy(call, maxChunk)
  {
  }

  lemma {:induction false} ResentParts(chunks: seq<string>, rounds: seq<nat>, d: string)
    requires d in Resent(chunks, rounds)
    ensures d in chunks
  {
    var last := |rounds| - 1;
    if d in Resent(chunks, rounds[..last]) {
      ResentParts(chunks, rounds[..last], d);
    }
  }

  lemma SentParts(call: Call, maxChunk: nat, d: string)
    requires HEADER < maxChunk && d in SentBy(call, maxChunk)
    ensures d in Outcome(call.payload, maxChunk, call.id).parts
  {
    var chunks := Outcome(call.payload, maxChunk, call.id).parts;
    if d in Resent(chunks, call.rounds) {
      ResentParts(chunks, call.rounds, d);
    }
  }

  lemma {:induction false} OnWire(calls: seq<Call>, maxChunk: nat, d: string) returns (i: nat)
    requires HEADER < maxChunk && d in Wire(calls, maxChunk)
    ensures i < |calls| && d in SentBy(calls[i], maxChunk)
  {
    var last := |calls| - 1;
    if d in SentBy(calls[last], maxChunk) {
      i := last;
    } else {
      i := OnWire(calls[..last], maxChunk, d);
    }
  }

  lemma {:induction false} WireHas(calls: seq<Call>, maxChunk: nat, i: nat, d: string)
    requires HEADER < maxChunk && i < |calls| && d in SentBy(calls[i], maxChunk)
    ensures d in Wire(calls, maxChunk)
  {
    var last := |calls| - 1;
    if i < last {
      WireHas(calls[..last], maxChunk, i, d);
    }
  }

  /** Calls as the sink makes them: ids differ, and no payload sent in one piece passes for a chunk. */
  ghost predicate Proper(calls: seq<Call>, maxChunk: nat) {
    && HEADER < maxChunk
    && (forall i :: 0 <= i < |calls| ==> calls[i].id < WORD)
    && (forall i, j :: 0 <= i < j < |calls| ==> calls[i].id != calls[j].id)
    && (forall i :: 0 <= i < |calls| && |calls[i].payload| <= maxChunk ==> !IsChunk(calls[i].payload))
  }

  /** The calls as messages of the receiver. */
  function Messages(calls: seq<Call>, maxChunk: nat): seq<Message>
    requires HEADER < maxChunk
  {
    seq(|calls|, i requires 0 <= i < |calls| => Message(calls[i].payload, maxChunk - HEADER, calls[i].id))
  }

  lemma MessagesSound(calls: seq<Call>, maxChunk: nat)
    requires Proper(calls, maxChunk)
    ensures Sound(Messages(calls, maxChunk))
  {
  }

  /** A chunk that one call sent is a part of that call's message. */
  lemma ChunkIsPart(call: Call, maxChunk: nat, d: string)
    requires HEADER < maxChunk && d in SentBy(call, maxChunk) && IsChunk(d)
    requires |call.payload| <= maxChunk ==> !IsChunk(call.payload)
    ensures d in Chunks(call.payload, maxChunk - HEADER, call.id)
  {
    SentParts(call, maxChunk, d);
  }

  lemma ChunkOnWire(calls: seq<Call>, maxChunk: nat, d: string)
    requires Proper(calls, maxChunk) && Sound(Messages(calls, maxChunk))
    requires d in Wire(calls, maxChunk) && IsChunk(d)
    ensures IsPartOfOne(d, Messages(calls, maxChunk))
  {
    var i := OnWire(calls, maxChunk, d);
    ChunkIsPart(calls[i], maxChunk, d);
    assert d in Messages(calls, maxChunk)[i].Parts();
  }

  /**
  The receiver's side is any sequence of the datagrams on the wire, repeated or reordered or lost. For every call that
  chunked its payload: the receiver has it exactly when all its chunks have arrived.
  */
  lemma ArrivalsRebuild(calls: seq<Call>, maxChunk: nat, arrivals: seq<string>, i: nat)
    requires Proper(calls, maxChunk) && i < |calls| && |calls[i].payload| > maxChunk
    requires forall d :: d in arrivals ==> d in Wire(calls, maxChunk)
    ensures Rebuilt(ReceiveAll(arrivals), IdBytes(calls[i].id)) ==
            if forall d :: d in Chunks(calls[i].payload, maxChunk - HEADER, calls[i].id) ==> d in arrivals
            then Some(Carried(calls[i].payload, maxChunk - HEADER)) else None
  {
    var messages := Messages(calls, maxChunk);
    MessagesSound(calls, maxChunk);
    forall d | d in arrivals && IsChunk(d) ensures IsPartOfOne(d, messages) {
      ChunkOnWire(calls, maxChunk, d);
    }
    AllReassembled(arrivals, messages, i);
  }

  /** If nothing that was sent is lost, every call that returned has its payload at the receiver. */
  lemma ReturnedWritesArrive(calls: seq<Call>, maxChunk: nat, arrivals: seq<string>, i: nat)
    requires Proper(calls, maxChunk) && i < |calls| && |calls[i].payload| > maxChunk && calls[i].returned
    requires forall d :: d in arrivals <==> d in Wire(calls, maxChunk)
    ensures Rebuilt(ReceiveAll(arrivals), IdBytes(calls[i].id)) ==
            Some(Carried(calls[i].payload, maxChunk - HEADER))
  {
    forall d | d in Chunks(calls[i].payload, maxChunk - HEADER, calls[i].id) ensures d in arrivals {
      WireHas(calls, maxChunk, i, d);
    }
    ArrivalsRebuild(calls, maxChunk, arrivals, i);
  }

  /** The sink's own payloads never pass for chunks. */
  lemma PayloadIsNoChunk(event: Event, host: string)
    ensures !IsChunk(Print(GelfValue(event, host)))
  {
    assert Print(GelfValue(event, host))[0] == '{';
  }
}
