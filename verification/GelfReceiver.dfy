/** A GELF server's reassembly, and the proof that it undoes the chunking in whatever order datagrams arrive. */
module GelfReceiver {
  import opened Json
  import opened GelfChunks
  import opened Words

  datatype Partial = Partial(count: nat, parts: map<nat, string>)

  predicate IsChunk(d: string) {
    |d| >= HEADER && d[0] as int == 0x1e && d[1] as int == 0x0f
  }

  function IdOf(d: string): string
    requires IsChunk(d)
  {
    d[2..10]
  }

  /** Duplicates, impossible sequence numbers and contradicting counts are ignored. */
  function Receive(pool: map<string, Partial>, d: string): map<string, Partial> {
    if !IsChunk(d) || d[10] >= d[11] || d[11] as nat > MOST_CHUNKS then pool
    else
      var known := if IdOf(d) in pool then pool[IdOf(d)] else Partial(d[11] as nat, map[]);
      if known.count != d[11] as nat || d[10] as nat in known.parts then pool
      else pool[IdOf(d) := Partial(known.count, known.parts[d[10] as nat := d[HEADER..]])]
  }

  function ReceiveAll(arrivals: seq<string>): map<string, Partial> {
    if arrivals == [] then map[]
    else Receive(ReceiveAll(arrivals[..|arrivals| - 1]), arrivals[|arrivals| - 1])
  }

  function Join(parts: map<nat, string>, n: nat): string
    requires forall i :: 0 <= i < n ==> i in parts
  {
    if n == 0 then "" else Join(parts, n - 1) + parts[n - 1]
  }

  /** The message, once all its chunks are there. */
  function Rebuilt(pool: map<string, Partial>, id: string): Option<string> {
    if id in pool && forall i :: 0 <= i < pool[id].count ==> i in pool[id].parts then
      Some(Join(pool[id].parts, pool[id].count))
    else None
  }

  /** Nothing else on the wire uses this message's id. */
  predicate IdIsOurs(arrivals: seq<string>, id: nat, chunks: seq<string>) {
    forall k :: 0 <= k < |arrivals| && IsChunk(arrivals[k]) && IdOf(arrivals[k]) == IdBytes(id) ==>
      arrivals[k] in chunks
  }

  lemma ChunkParts(payload: string, m: nat, id: nat, n: nat, i: nat)
    requires i < n <= MOST_CHUNKS
    ensures var d := ChunkAt(payload, m, id, n, i);
            && IsChunk(d) && IdOf(d) == IdBytes(id)
            && d[10] as nat == i && d[11] as nat == n && d[HEADER..] == Piece(payload, m, i)
  {
  }

  /** What the receiver holds of this message after these arrivals: exactly the pieces that have arrived. */
  ghost predicate Holds(pool: map<string, Partial>, arrivals: seq<string>, payload: string, m: nat, id: nat)
    requires m > 0
  {
    var chunks, key := Chunks(payload, m, id), IdBytes(id);
    && (key in pool <==> exists i :: 0 <= i < |chunks| && chunks[i] in arrivals)
    && (key in pool ==> PiecesAre(pool[key], arrivals, payload, m, id))
  }

  ghost predicate PiecesAre(p: Partial, arrivals: seq<string>, payload: string, m: nat, id: nat)
    requires m > 0
  {
    var chunks := Chunks(payload, m, id);
    && p.count == |chunks|
    && (forall i :: i in p.parts <==> 0 <= i < |chunks| && chunks[i] in arrivals)
    && (forall i :: i in p.parts ==> p.parts[i] == Piece(payload, m, i))
  }

  /** One more chunk of this message arrives. */
  lemma OursArrives(pool: map<string, Partial>, arrivals: seq<string>, i: nat, payload: string, m: nat, id: nat)
    requires m > 0 && Holds(pool, arrivals, payload, m, id)
    requires i < |Chunks(payload, m, id)|
    ensures Holds(Receive(pool, Chunks(payload, m, id)[i]), arrivals + [Chunks(payload, m, id)[i]], payload, m, id)
  {
    var chunks, key := Chunks(payload, m, id), IdBytes(id);
    var d, now := chunks[i], arrivals + [chunks[i]];
    ChunkParts(payload, m, id, |chunks|, i);
    forall k | 0 <= k < |chunks| ensures chunks[k] in now <==> chunks[k] in arrivals || k == i {
      ChunkParts(payload, m, id, |chunks|, k);
    }
    assert d in now;
    var known := if key in pool then pool[key] else Partial(|chunks|, map[]);
    assert PiecesAre(known, arrivals, payload, m, id);
    if i !in known.parts {
      assert PiecesAre(Partial(known.count, known.parts[i := d[HEADER..]]), now, payload, m, id);
    }
  }

  /** A datagram of someone else's, or none of a chunked message. */
  lemma OthersArrive(pool: map<string, Partial>, arrivals: seq<string>, d: string, payload: string, m: nat, id: nat)
    requires m > 0 && Holds(pool, arrivals, payload, m, id)
    requires d !in Chunks(payload, m, id)
    requires IsChunk(d) ==> IdOf(d) != IdBytes(id)
    ensures Holds(Receive(pool, d), arrivals + [d], payload, m, id)
  {
    var chunks := Chunks(payload, m, id);
    assert forall k :: 0 <= k < |chunks| ==> (chunks[k] in arrivals + [d] <==> chunks[k] in arrivals);
  }

  lemma {:induction false} HoldsAlways(arrivals: seq<string>, payload: string, m: nat, id: nat)
    requires m > 0 && IdIsOurs(arrivals, id, Chunks(payload, m, id))
    ensures Holds(ReceiveAll(arrivals), arrivals, payload, m, id)
  {
    if arrivals != [] {
      var before, d := arrivals[..|arrivals| - 1], arrivals[|arrivals| - 1];
      var chunks := Chunks(payload, m, id);
      assert before + [d] == arrivals;
      assert forall k :: 0 <= k < |before| ==> before[k] == arrivals[k];
      HoldsAlways(before, payload, m, id);
      if d in chunks {
        var i :| 0 <= i < |chunks| && chunks[i] == d;
        OursArrives(ReceiveAll(before), before, i, payload, m, id);
      } else {
        OthersArrive(ReceiveAll(before), before, d, payload, m, id);
      }
    }
  }

  ghost predicate IsCut(parts: map<nat, string>, payload: string, cuts: seq<nat>, i: nat)
    requires i + 1 < |cuts|
  {
    cuts[i] <= cuts[i + 1] <= |payload| && i in parts && parts[i] == payload[cuts[i]..cuts[i + 1]]
  }

  /** Pieces between consecutive cuts join to what lies between the first cut and the last. */
  lemma {:induction false} CutsJoin(parts: map<nat, string>, n: nat, payload: string, cuts: seq<nat>)
    requires |cuts| > n && cuts[0] == 0 && forall i :: 0 <= i < n ==> i in parts
    requires forall i :: 0 <= i < n ==> IsCut(parts, payload, cuts, i)
    ensures cuts[n] <= |payload| && Join(parts, n) == payload[..cuts[n]]
  {
    if n == 0 {
      assert payload[..0] == "";
    } else {
      CutsJoin(parts, n - 1, payload, cuts);
      assert IsCut(parts, payload, cuts, n - 1);
      assert payload[..cuts[n - 1]] + payload[cuts[n - 1]..cuts[n]] == payload[..cuts[n]];
    }
  }

  lemma PiecesJoin(parts: map<nat, string>, n: nat, payload: string, m: nat)
    requires forall i :: 0 <= i < n ==> i in parts && parts[i] == Piece(payload, m, i)
    ensures Join(parts, n) == payload[..Min(n * m, |payload|)]
  {
    var cuts := seq(n + 1, i requires 0 <= i <= n => Min(i * m, |payload|));
    forall i | 0 <= i < n ensures IsCut(parts, payload, cuts, i) {
      Distributes(i + 1, m);
    }
    CutsJoin(parts, n, payload, cuts);
  }

  lemma Distributes(n: int, m: int)
    ensures (n - 1) * m + m == n * m
  {
  }

  lemma MoreIsMore(a: nat, b: nat, m: nat)
    requires a <= b
    ensures a * m <= b * m
  {
  }

  lemma CountCarries(payload: string, m: nat)
    requires m > 0
    ensures Min(ChunkCount(payload, m) * m, |payload|) == Min(|payload|, MOST_CHUNKS * m)
    ensures payload != "" ==> ChunkCount(payload, m) > 0
  {
    var n := CeilDiv(|payload|, m);
    if n > MOST_CHUNKS {
      MoreIsMore(MOST_CHUNKS, n - 1, m);
      Distributes(n, m);
    } else {
      MoreIsMore(n, MOST_CHUNKS, m);
    }
  }

  /**
  Whatever order the chunks arrive in, however often each is repeated and whatever else is on the wire: the
  receiver has the message exactly when every chunk has arrived at least once, and then it is the payload, or its
  first 128 pieces when it would take more.
  */
  lemma Reassembled(arrivals: seq<string>, payload: string, m: nat, id: nat)
    requires m > 0 && payload != "" && IdIsOurs(arrivals, id, Chunks(payload, m, id))
    ensures Rebuilt(ReceiveAll(arrivals), IdBytes(id)) ==
            if forall d :: d in Chunks(payload, m, id) ==> d in arrivals then Some(Carried(payload, m)) else None
  {
    var chunks, pool, key := Chunks(payload, m, id), ReceiveAll(arrivals), IdBytes(id);
    HoldsAlways(arrivals, payload, m, id);
    CountCarries(payload, m);
    if forall d :: d in chunks ==> d in arrivals {
      assert chunks[0] in arrivals;
      assert forall i :: 0 <= i < |chunks| ==> chunks[i] in arrivals;
      PiecesJoin(pool[key].parts, |chunks|, payload, m);
    } else {
      var d :| d in chunks && d !in arrivals;
      var i :| 0 <= i < |chunks| && chunks[i] == d;
      assert key in pool ==> i !in pool[key].parts;
    }
  }

  /** What GELF allows, 128 chunks, is made full use of: a payload that they can hold gets across whole. */
  lemma CarriedWhole(payload: string, m: nat)
    ensures |payload| <= 128 * m ==> Carried(payload, m) == payload
    ensures |payload| > 128 * m ==> Carried(payload, m) == payload[..128 * m]
  {
    assert |payload| <= 128 * m ==> payload[..|payload|] == payload;
  }

  // Several messages on one wire.

  /** A chunked payload. */
  datatype Message = Message(payload: string, m: nat, id: nat) {
    function Parts(): seq<string>
      requires m > 0
    {
      Chunks(payload, m, id)
    }
  }

  ghost predicate Sound(messages: seq<Message>) {
    && (forall i :: 0 <= i < |messages| ==> messages[i].m > 0 && messages[i].id < WORD)
    && (forall i, j :: 0 <= i < j < |messages| ==> messages[i].id != messages[j].id)
  }

  /** Every datagram that looks like a chunk is a chunk of one of these messages. */
  ghost predicate OnlyChunksOf(arrivals: seq<string>, messages: seq<Message>)
    requires Sound(messages)
  {
    forall d :: d in arrivals && IsChunk(d) ==> IsPartOfOne(d, messages)
  }

  ghost predicate IsPartOfOne(d: string, messages: seq<Message>)
    requires Sound(messages)
  {
    exists j :: 0 <= j < |messages| && d in messages[j].Parts()
  }

  lemma PartIds(message: Message, i: nat)
    requires message.m > 0 && i < ChunkCount(message.payload, message.m)
    ensures IsChunk(message.Parts()[i]) && IdOf(message.Parts()[i]) == IdBytes(message.id)
  {
    ChunkParts(message.payload, message.m, message.id, |message.Parts()|, i);
  }

  /** Different ids keep messages apart, whatever is in the air together. */
  lemma IdsKeepApart(arrivals: seq<string>, messages: seq<Message>, i: nat)
    requires Sound(messages) && OnlyChunksOf(arrivals, messages) && i < |messages|
    ensures IdIsOurs(arrivals, messages[i].id, messages[i].Parts())
  {
    forall k | 0 <= k < |arrivals| && IsChunk(arrivals[k]) && IdOf(arrivals[k]) == IdBytes(messages[i].id)
      ensures arrivals[k] in messages[i].Parts()
    {
      assert IsPartOfOne(arrivals[k], messages);
      var j :| 0 <= j < |messages| && arrivals[k] in messages[j].Parts();
      var part :| 0 <= part < |messages[j].Parts()| && messages[j].Parts()[part] == arrivals[k];
      PartIds(messages[j], part);
      IdBytesInjective(messages[i].id, messages[j].id);
    }
  }

  /**
  Any number of messages with different ids, their chunks arriving in any order, interleaved and repeated: the
  receiver has each of them exactly when all its chunks have arrived.
  */
  lemma AllReassembled(arrivals: seq<string>, messages: seq<Message>, i: nat)
    requires Sound(messages) && OnlyChunksOf(arrivals, messages) && i < |messages| && messages[i].payload != ""
    ensures Rebuilt(ReceiveAll(arrivals), IdBytes(messages[i].id)) ==
            if forall d :: d in messages[i].Parts() ==> d in arrivals
            then Some(Carried(messages[i].payload, messages[i].m)) else None
  {
    IdsKeepApart(arrivals, messages, i);
    Reassembled(arrivals, messages[i].payload, messages[i].m, messages[i].id);
  }
}
