/**
tcp_client of src/net/socket.cpp, and the retry loop of the TCP sinks for a writer that nobody overtakes. What
the system calls answer is given in advance.
*/
module TcpClient {
  import opened Transport

  /** What makes the source close the connection and throw. */
  predicate Fails(answer: Answer) {
    answer == Refused || answer == Took(0)
  }

  /** The bytes that these answers take. */
  function Taken(answers: seq<Answer>): nat {
    if answers == [] then 0
    else
      var n := |answers| - 1;
      Taken(answers[..n]) + if answers[n].Took? then answers[n].n else 0
  }

  function Failures(answers: seq<Answer>): nat {
    if answers == [] then 0
    else
      var n := |answers| - 1;
      Failures(answers[..n]) + if Fails(answers[n]) then 1 else 0
  }

  function Misses(connects: seq<bool>): nat {
    if connects == [] then 0 else Misses(connects[..|connects| - 1]) + if connects[|connects| - 1] then 0 else 1
  }

  lemma {:induction false} FailuresAdd(a: seq<Answer>, b: seq<Answer>)
    ensures Failures(a + b) == Failures(a) + Failures(b)
  {
    if b == [] {
      assert a + b == a;
    } else {
      FailuresAdd(a, b[..|b| - 1]);
      assert (a + b)[..|a + b| - 1] == a + b[..|b| - 1];
    }
  }

  lemma {:induction false} MissesAdd(a: seq<bool>, b: seq<bool>)
    ensures Misses(a + b) == Misses(a) + Misses(b)
  {
    if b == [] {
      assert a + b == a;
    } else {
      MissesAdd(a, b[..|b| - 1]);
      assert (a + b)[..|a + b| - 1] == a + b[..|b| - 1];
    }
  }

  lemma {:induction false} NoFailures(answers: seq<Answer>)
    requires forall i :: 0 <= i < |answers| ==> !Fails(answers[i])
    ensures Failures(answers) == 0
  {
    if answers != [] {
      NoFailures(answers[..|answers| - 1]);
    }
  }

  /** Neither a send nor a connection attempt will fail. */
  predicate Smooth(answers: seq<Answer>, connects: seq<bool>) {
    Refused !in answers && Took(0) !in answers && false !in connects
  }

  /**
  The answers to the ::send calls that one send_all of `n` bytes makes, if `rest` are left; once there are none left
  the system takes everything. All is sent, by calls made only while bytes were left, and none of them failed.
  */
  ghost predicate Sent(used: seq<Answer>, rest: seq<Answer>, n: nat) {
    && (forall i :: 0 <= i < |used| ==> !Fails(used[i]))
    && (used != [] ==> Taken(used[..|used| - 1]) < n)
    && (Taken(used) >= n || rest == [])
  }

  /** The last one failed, the only one, with `got` bytes sent before it and some still to send. */
  ghost predicate CutShort(used: seq<Answer>, got: nat, n: nat) {
    && used != [] && Fails(used[|used| - 1]) && (forall i :: 0 <= i < |used| - 1 ==> !Fails(used[i]))
    && got == Taken(used) < n
  }

  lemma CutShortOnce(used: seq<Answer>, got: nat, n: nat)
    requires CutShort(used, got, n)
    ensures Failures(used) == 1
  {
    NoFailures(used[..|used| - 1]);
  }

  class Client {
    var connected: bool
    var streams: seq<string>      // one for every connection made; the last is the current one
    var answers: seq<Answer>      // of the coming ::send calls; later ones take everything
    var connects: seq<bool>       // of the coming connection attempts; later ones succeed

    ghost predicate Valid()
      reads this
    {
      connected ==> streams != []
    }

    constructor (answers: seq<Answer>, connects: seq<bool>)
      ensures Valid() && !connected && streams == []
      ensures this.answers == answers && this.connects == connects
    {
      connected, streams := false, [];
      this.answers, this.connects := answers, connects;
    }

    method Close()
      modifies this`connected
      ensures !connected
    {
      if !connected {
        return;
      }
      connected := false;
    }

    method Connect() returns (ok: bool)
      requires Valid()
      modifies this`connected, this`streams, this`connects
      ensures Valid() && connected == ok
      ensures ok <==> old(connects) == [] || old(connects)[0]
      ensures connects == if old(connects) == [] then [] else old(connects)[1..]
      ensures streams == if ok then old(streams) + [""] else old(streams)
    {
      Close();
      ok := true;
      if connects != [] {
        ok := connects[0];
        connects := connects[1..];
      }
      if ok {
        streams := streams + [""];
        connected := true;
      }
    }

    /** One ::send of `data`: bytes taken, or a negative number with `interrupted` for EINTR. */
    method SystemSend(data: string) returns (sent: int, interrupted: bool)
      requires connected && Valid() && data != ""
      modifies this`streams, this`answers
      ensures Valid() && sent <= |data|
      ensures streams ==
        old(streams)[|old(streams)| - 1 := old(streams)[|old(streams)| - 1] + data[..if sent > 0 then sent else 0]]
      ensures answers == if old(answers) == [] then [] else old(answers)[1..]
      ensures old(answers) == [] ==> sent == |data| && !interrupted
      ensures old(answers) != [] ==>
        match old(answers)[0]
        case Interrupted => sent < 0 && interrupted
        case Refused => sent < 0 && !interrupted
        case Took(n) => sent == (if n <= |data| then n else |data|) && !interrupted
    {
      var answer := Took(|data|);
      if answers != [] {
        answer := answers[0];
        answers := answers[1..];
      }
      interrupted := answer.Interrupted?;
      sent := if answer.Took? then (if answer.n <= |data| then answer.n else |data|) else -1;
      if sent > 0 {
        streams := streams[|streams| - 1 := streams[|streams| - 1] + data[..sent]];
      } else {
        assert streams[|streams| - 1] + data[..0] == streams[|streams| - 1];
      }
    }

    /**
    The payload goes on the current connection, partial sends and interruptions included. At the first answer that
    is neither bytes nor an interruption the connection is closed, and the source throws. `used` are the answers seen.
    */
    method SendAll(payload: string) returns (ok: bool, ghost got: nat, ghost used: seq<Answer>)
      requires Valid()
      modifies this`connected, this`streams, this`answers
      ensures Valid() && connected == ok && used + answers == old(answers)
      ensures !old(connected) ==> !ok && used == [] && streams == old(streams)
      ensures ok ==> got == |payload| && Sent(used, answers, |payload|)
      ensures old(connected) && !ok ==> CutShort(used, got, |payload|)
      ensures got <= |payload|
      ensures old(connected) ==>
        streams == old(streams)[|old(streams)| - 1 := old(streams)[|old(streams)| - 1] + payload[..got]]
    {
      got, used := 0, [];
      if !connected {
        return false, 0, [];
      }
      var offset: nat := 0;
      ghost var start := streams[|streams| - 1];
      assert start + payload[..0] == start;
      while offset < |payload|
        invariant connected && offset <= |payload| && got == offset
        invariant |streams| == |old(streams)|
        invariant used + answers == old(answers) && Going(used, answers, offset, |payload|)
        invariant streams == old(streams)[|streams| - 1 := start + payload[..offset]]
        decreases |payload| - offset, |answers|
      {
        GoesOn(used, answers, offset, |payload|);
        used := if answers == [] then used else used + [answers[0]];
        var sent, interrupted := SystemSend(payload[offset..]);
        if sent < 0 && interrupted {
          Appended(start, payload, offset, 0);
          continue;
        }
        if sent <= 0 {
          Appended(start, payload, offset, 0);
          Close();
          return false, offset, used;
        }
        Appended(start, payload, offset, sent);
        offset := offset + sent;
        got := offset;
      }
      return true, offset, used;
    }
  }

  /** Halfway through a send_all, `offset` bytes sent. */
  ghost predicate Going(used: seq<Answer>, rest: seq<Answer>, offset: nat, n: nat) {
    && offset <= n && (forall i :: 0 <= i < |used| ==> !Fails(used[i]))
    && if offset < n then offset == Taken(used) else Sent(used, rest, n)
  }

  /** What the next answer makes of it. */
  lemma GoesOn(used: seq<Answer>, rest: seq<Answer>, offset: nat, n: nat)
    requires Going(used, rest, offset, n) && offset < n
    ensures rest == [] ==> Going(used, [], n, n)
    ensures rest != [] ==>
      && used + [rest[0]] + rest[1..] == used + rest
      && if Fails(rest[0]) then CutShort(used + [rest[0]], offset, n)
         else Going(used + [rest[0]], rest[1..],
                    if rest[0].Interrupted? then offset else Min(offset + rest[0].n, n), n)
  {
    if rest != [] {
      var now := used + [rest[0]];
      assert now[..|used|] == used;
    }
  }

  function Min(a: nat, b: nat): nat {
    if a <= b then a else b
  }

  lemma Appended(start: string, payload: string, offset: nat, n: nat)
    requires offset + n <= |payload|
    ensures start + payload[..offset] + payload[offset..][..n] == start + payload[..offset + n]
  {
    assert payload[..offset] + payload[offset..][..n] == payload[..offset + n];
    assert start + payload[..offset] + payload[offset..][..n] == start + (payload[..offset] + payload[offset..][..n]);
  }

  /** Connections only get longer, and none but the last one at that. */
  ghost predicate OnlyLonger(before: seq<string>, after: seq<string>) {
    && |before| <= |after|
    && (forall i :: 0 <= i < |before| - 1 ==> after[i] == before[i])
    && (before != [] ==> before[|before| - 1] <= after[|before| - 1])
  }

  /** What has been added to connection i. */
  function Added(before: seq<string>, after: seq<string>, i: nat): string
    requires i < |after| && (i < |before| ==> |before[i]| <= |after[i]|)
  {
    if i < |before| then after[i][|before[i]|..] else after[i]
  }

  /** The last connection has got the payload if `whole`, and every other one no more than a strict part of it. */
  ghost predicate Trail(before: seq<string>, after: seq<string>, payload: string, whole: bool) {
    && OnlyLonger(before, after)
    && (whole ==> after != [])
    && forall i :: 0 <= i < |after| ==>
         if whole && i == |after| - 1 then Added(before, after, i) == payload
         else Added(before, after, i) == "" || Added(before, after, i) < payload
  }

  lemma TrailGrows(before: seq<string>, now: seq<string>, after: seq<string>, payload: string, got: nat)
    requires Trail(before, now, payload, false) && now != [] && Added(before, now, |now| - 1) == ""
    requires got <= |payload|
    requires after == now[|now| - 1 := now[|now| - 1] + payload[..got]]
    ensures Trail(before, after, payload, got == |payload|)
  {
    var last := |now| - 1;
    assert Added(before, after, last) == payload[..got];
    assert forall i :: 0 <= i < last ==> Added(before, after, i) == Added(before, now, i);
    assert got == |payload| ==> payload[..got] == payload;
    assert got < |payload| ==> payload[..got] < payload;
  }

  lemma TrailStarts(streams: seq<string>, payload: string)
    ensures Trail(streams, streams, payload, false)
    ensures forall i :: 0 <= i < |streams| ==> Added(streams, streams, i) == ""
  {
  }

  lemma TrailConnects(before: seq<string>, now: seq<string>, payload: string)
    requires Trail(before, now, payload, false)
    ensures Trail(before, now + [""], payload, false) && Added(before, now + [""], |now|) == ""
  {
    assert forall i :: 0 <= i < |now| ==> Added(before, now + [""], i) == Added(before, now, i);
  }

  class Sink {
    const client: Client
    const maxRetries: nat       // 0 without reconnect_on_failure
    var attempts: nat
    var failures: nat
    var reconnects: nat

    constructor (client: Client, reconnect: bool, maxWriteRetries: nat)
      ensures this.client == client && maxRetries == (if reconnect then maxWriteRetries else 0)
      ensures attempts == 0 && failures == 0 && reconnects == 0
    {
      this.client := client;
      maxRetries := if reconnect then maxWriteRetries else 0;
      attempts, failures, reconnects := 0, 0, 0;
    }

    /** `tried` is what the connection attempt came to, if one was made. */
    method EnsureConnected() returns (ok: bool, ghost tried: seq<bool>)
      requires client.Valid()
      modifies client`connected, client`streams, client`connects
      ensures client.Valid() && client.connected == ok && tried + client.connects == old(client.connects)
      ensures client.streams ==
        if ok && !old(client.connected) then old(client.streams) + [""] else old(client.streams)
      ensures ok <==> old(client.connected) || old(client.connects) == [] || old(client.connects)[0]
      ensures tried == if old(client.connected) || old(client.connects) == [] then [] else [ok]
    {
      ok, tried := true, [];
      if !client.connected {
        tried := if client.connects == [] then [] else [client.connects[0]];
        ok := client.Connect();
      }
    }

    /**
    True if the write returns, false if it throws. `used` and `tried` are the answers to ::send and the connection
    attempts it went through: it counts one failure for each that failed.
    */
    method Write(payload: string) returns (ok: bool, ghost used: seq<Answer>, ghost tried: seq<bool>)
      requires client.Valid()
      modifies this`attempts, this`failures, this`reconnects, client
      ensures client.Valid() && client.connected == ok
      ensures used + client.answers == old(client.answers) && tried + client.connects == old(client.connects)
      ensures failures - old(failures) == Failures(used) + Misses(tried)
      ensures Trail(old(client.streams), client.streams, payload, ok)
      ensures attempts == old(attempts) + 1
      ensures 0 <= reconnects - old(reconnects) <= maxRetries
      ensures failures - old(failures) == reconnects - old(reconnects) + if ok then 0 else 1
      ensures !ok ==> reconnects - old(reconnects) == maxRetries
      ensures Smooth(old(client.answers), old(client.connects)) ==> ok && reconnects == old(reconnects)
    {
      attempts := attempts + 1;
      used, tried := [], [];
      var retriesRemaining := maxRetries;
      TrailStarts(client.streams, payload);
      while true
        invariant client.Valid() && 0 <= retriesRemaining <= maxRetries && attempts == old(attempts) + 1
        invariant used + client.answers == old(client.answers) && tried + client.connects == old(client.connects)
        invariant failures - old(failures) == Failures(used) + Misses(tried)
        invariant Trail(old(client.streams), client.streams, payload, false)
        invariant client.connected ==> client.streams == old(client.streams)
        invariant reconnects == old(reconnects) + (maxRetries - retriesRemaining)
        invariant failures == old(failures) + (maxRetries - retriesRemaining)
        invariant Smooth(old(client.answers), old(client.connects)) ==> retriesRemaining == maxRetries
        decreases retriesRemaining
      {
        ghost var nowUsed, nowTried;
        var sent;
        if Smooth(old(client.answers), old(client.connects)) {
          SmoothRest(used, client.answers, tried, client.connects);
        }
        sent, nowUsed, nowTried := TryOnce(payload, old(client.streams));
        FailuresAdd(used, nowUsed);
        MissesAdd(tried, nowTried);
        Joined(used, nowUsed, client.answers);
        Joined(tried, nowTried, client.connects);
        used, tried := used + nowUsed, tried + nowTried;
        if sent {
          return true, used, tried;
        }
        failures := failures + 1;
        if retriesRemaining == 0 {
          return false, used, tried;
        }
        retriesRemaining := retriesRemaining - 1;
        reconnects := reconnects + 1;
        client.Close();
      }
    }

    /** The body of the `try`: connect if need be, and send. False where something throws. */
    method TryOnce(payload: string, ghost before: seq<string>)
        returns (sent: bool, ghost used: seq<Answer>, ghost tried: seq<bool>)
      requires client.Valid() && Trail(before, client.streams, payload, false)
      requires client.connected ==> client.streams == before
      modifies client
      ensures client.Valid() && client.connected == sent
      ensures Trail(before, client.streams, payload, sent)
      ensures used + client.answers == old(client.answers) && tried + client.connects == old(client.connects)
      ensures Failures(used) + Misses(tried) == if sent then 0 else 1
      ensures Smooth(old(client.answers), old(client.connects)) ==> sent
    {
      TrailStarts(before, payload);
      TrailConnects(before, client.streams, payload);
      used := [];
      sent, tried := EnsureConnected();
      assert Misses(tried) == if sent then 0 else 1;
      if sent {
        ghost var now := client.streams;
        ghost var got;
        sent, got, used := client.SendAll(payload);
        if sent {
          NoFailures(used);
        } else {
          CutShortOnce(used, got, |payload|);
          CutShortNotSmooth(used, client.answers, got, |payload|);
        }
        TrailGrows(before, now, client.streams, payload, got);
      }
    }
  }

  lemma SmoothRest(used: seq<Answer>, answers: seq<Answer>, tried: seq<bool>, connects: seq<bool>)
    requires Smooth(used + answers, tried + connects)
    ensures Smooth(answers, connects)
  {
    assert forall a :: a in answers ==> a in used + answers;
    assert forall c :: c in connects ==> c in tried + connects;
  }

  lemma CutShortNotSmooth(used: seq<Answer>, rest: seq<Answer>, got: nat, n: nat)
    requires CutShort(used, got, n)
    ensures !Smooth(used + rest, [])
  {
    assert used[|used| - 1] in used + rest;
  }

  lemma Joined<T>(a: seq<T>, b: seq<T>, c: seq<T>)
    ensures a + b + c == a + (b + c)
  {
  }
}
