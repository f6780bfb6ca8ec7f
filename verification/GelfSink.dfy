/** Sending: udp_client::send of src/net/socket.cpp and the retry loop of src/sinks/gelf_udp_sink.cpp. */
module GelfSink {
  import opened GelfChunks
  import opened Words

  /** What one call of ::sendto answers. */
  datatype Answer = Interrupted | Refused | Accepted

  function Refusals(answers: seq<Answer>): nat {
    if answers == [] then 0
    else Refusals(answers[..|answers| - 1]) + if answers[|answers| - 1].Refused? then 1 else 0
  }

  lemma {:induction false} RefusalsAdd(a: seq<Answer>, b: seq<Answer>)
    ensures Refusals(a + b) == Refusals(a) + Refusals(b)
  {
    if b == [] {
      assert a + b == a;
    } else {
      RefusalsAdd(a, b[..|b| - 1]);
      assert (a + b)[..|a + b| - 1] == a + b[..|b| - 1];
    }
  }

  lemma {:induction false} NoRefusals(answers: seq<Answer>)
    requires forall i :: 0 <= i < |answers| ==> !answers[i].Refused?
    ensures Refusals(answers) == 0
  {
    if answers != [] {
      NoRefusals(answers[..|answers| - 1]);
    }
  }

  /** Interruptions and then, unless there are no answers left, one that is `last`. */
  ghost predicate EndsWith(used: seq<Answer>, rest: seq<Answer>, last: Answer) {
    && (forall i :: 0 <= i < |used| - 1 ==> used[i] == Interrupted)
    && (used == [] || used[|used| - 1] == Interrupted ==> rest == [] && last == Accepted)
    && (used != [] && used[|used| - 1] != Interrupted ==> used[|used| - 1] == last)
  }

  lemma OneRefusal(used: seq<Answer>, rest: seq<Answer>, last: Answer)
    requires EndsWith(used, rest, last) && last != Interrupted
    ensures Refusals(used) == if last.Refused? then 1 else 0
    ensures last.Refused? ==> Refused in used
  {
    if used != [] {
      NoRefusals(used[..|used| - 1]);
    }
  }

  lemma Joined<T>(a: seq<T>, b: seq<T>, c: seq<T>)
    ensures a + b + c == a + (b + c)
  {
  }

  lemma RefusedStays(used: seq<Answer>, rest: seq<Answer>)
    requires Refused !in used + rest
    ensures Refused !in used && Refused !in rest
  {
    assert forall a :: a in used ==> a in used + rest;
    assert forall a :: a in rest ==> a in used + rest;
  }

  /** The socket and the network behind it: answers still to come, every later call being accepted. */
  class UdpClient {
    var configured: bool
    var sent: seq<string>
    var answers: seq<Answer>
    var resolves: seq<bool>   // whether the coming configurations succeed; every later one does

    constructor (answers: seq<Answer>, resolves: seq<bool>)
      ensures configured && sent == [] && this.answers == answers && this.resolves == resolves
    {
      configured := true;
      sent := [];
      this.answers := answers;
      this.resolves := resolves;
    }

    method SendTo(payload: string) returns (a: Answer)
      modifies this`sent, this`answers
      ensures a == if old(answers) == [] then Accepted else old(answers)[0]
      ensures answers == if old(answers) == [] then [] else old(answers)[1..]
      ensures sent == if a.Accepted? then old(sent) + [payload] else old(sent)
    {
      a := Accepted;
      if answers != [] {
        a := answers[0];
        answers := answers[1..];
      }
      if a.Accepted? {
        sent := sent + [payload];
      }
    }

    /**
    False where the source throws. `used` are the answers of ::sendto: interruptions, and then the one that decides
    between the datagram on the wire and a closed socket.
    */
    method Send(payload: string) returns (ok: bool, ghost used: seq<Answer>)
      modifies this`sent, this`answers, this`configured
      ensures used + answers == old(answers)
      ensures old(configured) ==> EndsWith(used, answers, if ok then Accepted else Refused)
      ensures !old(configured) ==> !ok && used == []
      ensures ok ==> sent == old(sent) + [payload] && configured
      ensures !ok ==> sent == old(sent) && !configured
    {
      used := [];
      if !configured {
        return false, used;
      }
      while true
        invariant sent == old(sent) && configured && used + answers == old(answers)
        invariant forall i :: 0 <= i < |used| ==> used[i] == Interrupted
        decreases |answers|
      {
        ghost var seen := if answers == [] then [] else [answers[0]];
        Joined(used, seen, if answers == [] then [] else answers[1..]);
        var a := SendTo(payload);
        used := used + seen;
        if a.Interrupted? {
          continue;
        }
        if a.Refused? {
          configured := false;
          return false, used;
        }
        return true, used;
      }
    }

    method Configure() returns (ok: bool)
      modifies this`configured, this`resolves
      ensures configured == ok
      ensures ok <==> old(resolves) == [] || old(resolves)[0]
      ensures resolves == if old(resolves) == [] then [] else old(resolves)[1..]
    {
      ok := true;
      if resolves != [] {
        ok := resolves[0];
        resolves := resolves[1..];
      }
      configured := ok;
    }
  }

  datatype Ending = Returned | SendFailed | ConfigureFailed

  class Sink {
    const client: UdpClient
    const maxRetries: nat      // 0 without reconnect_on_failure
    var attempts: nat
    var failures: nat
    var reconnects: nat

    constructor (client: UdpClient, reconnect: bool, maxWriteRetries: nat)
      ensures this.client == client && maxRetries == (if reconnect then maxWriteRetries else 0)
      ensures attempts == 0 && failures == 0 && reconnects == 0
    {
      this.client := client;
      maxRetries := if reconnect then maxWriteRetries else 0;
      attempts, failures, reconnects := 0, 0, 0;
    }

    /** The chunks in order, up to the first that cannot be sent. */
    method SendRound(chunks: seq<string>) returns (ok: bool, ghost got: nat, ghost used: seq<Answer>)
      modifies client`sent, client`answers, client`configured
      ensures got <= |chunks| && (ok <==> got == |chunks|)
      ensures client.sent == old(client.sent) + chunks[..got]
      ensures chunks != [] ==> client.configured == ok
      ensures ok && chunks != [] ==> old(client.configured)
      ensures used + client.answers == old(client.answers)
      ensures Refusals(used) == if ok || !old(client.configured) then 0 else 1
      ensures old(client.configured) && Refused !in old(client.answers) ==> ok
    {
      used := [];
      for i := 0 to |chunks|
        invariant client.sent == old(client.sent) + chunks[..i]
        invariant i > 0 ==> client.configured && old(client.configured)
        invariant i == 0 ==> client.configured == old(client.configured)
        invariant used + client.answers == old(client.answers) && Refusals(used) == 0
      {
        var sent;
        ghost var seen;
        sent, seen := client.Send(chunks[i]);
        if old(client.configured) {
          OneRefusal(seen, client.answers, if sent then Accepted else Refused);
        }
        RefusalsAdd(used, seen);
        Joined(used, seen, client.answers);
        used := used + seen;
        if !sent {
          if Refused !in old(client.answers) {
            RefusedStays(used, client.answers);
          }
          return false, i, used;
        }
        assert chunks[..i + 1] == chunks[..i] + [chunks[i]];
      }
      assert chunks[..|chunks|] == chunks;
      return true, |chunks|, used;
    }

    /**
    Lines 97 to 132 of `write`, for a writer that nobody overtakes while the lock is released. `rounds` says how many
    chunks each failed round got out, `used` are the answers of ::sendto: each refusal fails a round and is counted,
    and so is a round that finds the socket closed.
    */
    method WriteChunks(chunks: seq<string>) returns (end: Ending, ghost rounds: seq<nat>, ghost used: seq<Answer>)
      modifies this`attempts, this`failures, this`reconnects, client
      ensures attempts == old(attempts) + 1
      ensures forall r :: r in rounds ==> r < |chunks|
      ensures client.sent == old(client.sent) + Resent(chunks, rounds) + if end.Returned? then chunks else []
      ensures failures == old(failures) + |rounds|
      ensures used + client.answers == old(client.answers)
      ensures |rounds| == Refusals(used) + if old(client.configured) || chunks == [] then 0 else 1
      ensures 0 <= reconnects - old(reconnects) <= maxRetries
      ensures |rounds| == reconnects - old(reconnects) + if end.SendFailed? then 1 else 0
      ensures end.SendFailed? ==> reconnects - old(reconnects) == maxRetries
      ensures old(client.configured) && Refused !in old(client.answers) ==> end.Returned? && rounds == []
    {
      attempts := attempts + 1;
      rounds, used := [], [];
      var remaining := maxRetries;
      while true
        invariant 0 <= remaining <= maxRetries && attempts == old(attempts) + 1
        invariant |rounds| == maxRetries - remaining && forall r :: r in rounds ==> r < |chunks|
        invariant reconnects == old(reconnects) + |rounds| && failures == old(failures) + |rounds|
        invariant client.sent == old(client.sent) + Resent(chunks, rounds)
        invariant used + client.answers == old(client.answers)
        invariant rounds == [] ==> used == [] && client.configured == old(client.configured)
        invariant rounds != [] ==> chunks != [] && client.configured
        invariant rounds != [] ==> |rounds| == Refusals(used) + if old(client.configured) then 0 else 1
        invariant old(client.configured) && Refused !in old(client.answers) ==> rounds == []
        decreases remaining
      {
        ghost var got, seen;
        var ok;
        ok, got, seen := SendRound(chunks);
        RefusalsAdd(used, seen);
        Joined(used, seen, client.answers);
        used := used + seen;
        if ok {
          assert chunks[..got] == chunks;
          return Returned, rounds, used;
        }
        ResentMore(old(client.sent), chunks, rounds, got);
        rounds := rounds + [got];
        failures := failures + 1;
        if remaining == 0 {
          return SendFailed, rounds, used;
        }
        remaining := remaining - 1;
        reconnects := reconnects + 1;
        var configured := client.Configure();
        if !configured {
          return ConfigureFailed, rounds, used;
        }
      }
    }

    /**
    A whole `write`. Nothing is required of the settings but what keeps the division defined. Whatever is chunked is
    on the wire when the write returns, however many rounds it took.
    */
    method Write(payload: string, maxChunk: nat, id: nat)
        returns (end: Ending, ghost rounds: seq<nat>, ghost used: seq<Answer>)
      requires maxChunk < WORD && |payload| < WORD / 2 && id < WORD
      requires |payload| <= maxChunk || maxChunk != HEADER
      modifies this`attempts, this`failures, this`reconnects, client
      ensures attempts == old(attempts) + 1 && failures == old(failures) + |rounds|
      ensures used + client.answers == old(client.answers)
      ensures old(client.configured) ==> |rounds| == Refusals(used)
      ensures 0 <= reconnects - old(reconnects) <= maxRetries
      ensures |rounds| == reconnects - old(reconnects) + if end.SendFailed? then 1 else 0
      ensures var chunks := Outcome(payload, maxChunk, id).parts;
              client.sent == old(client.sent) + Resent(chunks, rounds) + (if end.Returned? then chunks else [])
      ensures |payload| <= maxChunk && end.Returned? ==> client.sent == old(client.sent) + [payload]
      ensures |payload| > maxChunk > HEADER && end.Returned? ==>
        forall d :: d in Chunks(payload, maxChunk - HEADER, id) ==> d in client.sent
    {
      var chunks := Chunk(payload, maxChunk, id);
      end, rounds, used := WriteChunks(chunks.parts);
      if |payload| <= maxChunk {
        assert chunks.parts == [payload];
        forall i | 0 <= i < |rounds| ensures rounds[i] < 1 {
          assert rounds[i] in rounds;
        }
        ResentSingle(payload, rounds);
      }
    }
  }

  /** What the failed rounds sent. */
  function Resent(chunks: seq<string>, rounds: seq<nat>): seq<string> {
    if rounds == [] then []
    else
      var got := rounds[|rounds| - 1];
      Resent(chunks, rounds[..|rounds| - 1]) + if got <= |chunks| then chunks[..got] else []
  }

  lemma ResentMore(before: seq<string>, chunks: seq<string>, rounds: seq<nat>, got: nat)
    requires got <= |chunks|
    ensures before + Resent(chunks, rounds + [got]) == before + Resent(chunks, rounds) + chunks[..got]
  {
    var more := rounds + [got];
    assert more[..|more| - 1] == rounds;
  }

  /** With one datagram a failed round sends nothing. */
  lemma {:induction false} ResentSingle(d: string, rounds: seq<nat>)
    requires forall i :: 0 <= i < |rounds| ==> rounds[i] < 1
    ensures Resent([d], rounds) == []
  {
    if rounds != [] {
      ResentSingle(d, rounds[..|rounds| - 1]);
    }
  }
}
