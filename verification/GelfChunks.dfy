/**
GELF chunking (src/sinks/gelf_udp_sink.cpp) against a receiver that reassembles. Sizes are size_t: the two
subtractions and additions that can wrap are taken modulo 2^64.
*/
module GelfChunks {
  import opened Words

  const HEADER: nat := 12
  const MOST_CHUNKS: nat := 128

  function Min(a: nat, b: nat): nat {
    if a <= b then a else b
  }

  // The eight id bytes, lowest first.

  /** id >> (8 * b) */
  function Shifted(id: nat, b: nat): nat
    decreases b
  {
    if b == 0 then id else Shifted(id, b - 1) / 256
  }

  function IdBytes(id: nat): (s: string)
    ensures |s| == 8
  {
    seq(8, b requires 0 <= b < 8 => (Shifted(id, b) % 256) as char)
  }

  function Header(id: nat, i: nat, n: nat): (s: string)
    requires i < 256 && n < 256
    ensures |s| == HEADER
  {
    [0x1e as char, 0x0f as char] + IdBytes(id) + [i as char, n as char]
  }

  lemma {:induction false} ShiftedSame(a: nat, b: nat, k: nat)
    requires k <= 8 && IdBytes(a) == IdBytes(b) && Shifted(a, 8) == Shifted(b, 8)
    ensures Shifted(a, 8 - k) == Shifted(b, 8 - k)
  {
    if k > 0 {
      ShiftedSame(a, b, k - 1);
      var j := 8 - k;
      assert IdBytes(a)[j] == IdBytes(b)[j];
      assert (Shifted(a, j) % 256) as char as int == (Shifted(b, j) % 256) as char as int;
    }
  }

  lemma {:induction false} ShiftedOut(id: nat, b: nat, bound: nat)
    requires b <= 8 && id < bound * Power256(b)
    ensures Shifted(id, b) < bound
    decreases b
  {
    if b > 0 {
      assert bound * Power256(b) == (bound * 256) * Power256(b - 1);
      ShiftedOut(id, b - 1, bound * 256);
    }
  }

  function Power256(b: nat): nat {
    if b == 0 then 1 else 256 * Power256(b - 1)
  }

  lemma WordIs()
    ensures Power256(8) == WORD
  {
    assert Power256(4) == 0x1_0000_0000;
    assert Power256(8) == 256 * (256 * (256 * (256 * Power256(4))));
  }

  /** Different ids look different on the wire. */
  lemma IdBytesInjective(a: nat, b: nat)
    requires a < WORD && b < WORD && IdBytes(a) == IdBytes(b)
    ensures a == b
  {
    WordIs();
    ShiftedOut(a, 8, 1);
    ShiftedOut(b, 8, 1);
    ShiftedSame(a, b, 8);
    assert Shifted(a, 0) == a && Shifted(b, 0) == b;
  }

  // What the chunks should be.

  /** The i-th piece of m bytes; past the end there is nothing. */
  function Piece(payload: string, m: nat, i: nat): string {
    payload[Min(i * m, |payload|)..Min(i * m + m, |payload|)]
  }

  function CeilDiv(a: nat, m: nat): (n: nat)
    requires m > 0
    ensures n * m < a + m && a <= n * m
  {
    var n := (a + m - 1) / m;
    assert n * m <= a + m - 1 < n * m + m;
    n
  }

  function ChunkCount(payload: string, m: nat): nat
    requires m > 0
  {
    Min(CeilDiv(|payload|, m), MOST_CHUNKS)
  }

  function ChunkAt(payload: string, m: nat, id: nat, n: nat, i: nat): string
    requires n < 256 && i < n
  {
    Header(id, i, n) + Piece(payload, m, i)
  }

  function Chunks(payload: string, m: nat, id: nat): (chunks: seq<string>)
    requires m > 0
    ensures |chunks| == ChunkCount(payload, m)
  {
    var n := ChunkCount(payload, m);
    seq(n, i requires 0 <= i < n => ChunkAt(payload, m, id, n, i))
  }

  /** What can get across: all of the payload, or as much as 128 chunks hold. */
  function Carried(payload: string, m: nat): string {
    payload[..Min(|payload|, MOST_CHUNKS * m)]
  }

  // The chunking itself.

  datatype Chunked = Datagrams(parts: seq<string>) | DividesByZero

  method MakeChunk(payload: string, m: nat, id: nat, n: nat, i: nat) returns (chunk: string)
    requires n < 256 && i < n && i * m <= |payload|
    ensures chunk == ChunkAt(payload, m, id, n, i)
  {
    chunk := [0x1e as char];
    chunk := chunk + [0x0f as char];
    for b := 0 to 8
      invariant chunk == [0x1e as char, 0x0f as char] + IdBytes(id)[..b]
    {
      chunk := chunk + [(Shifted(id, b) % 256) as char];
      assert IdBytes(id)[..b + 1] == IdBytes(id)[..b] + [IdBytes(id)[b]];
    }
    assert IdBytes(id)[..8] == IdBytes(id);
    chunk := chunk + [i as char];
    chunk := chunk + [n as char];
    assert chunk == Header(id, i, n);
    var offset := i * m;
    var size := Min(m, |payload| - offset);
    chunk := chunk + payload[offset..offset + size];
    assert offset + size == Min(offset + m, |payload|);
  }

  method MakeChunks(payload: string, m: nat, id: nat, total: nat) returns (chunks: seq<string>)
    requires m > 0 && (total * m < |payload| + m || total == 1)
    ensures |chunks| == Min(total, MOST_CHUNKS)
    ensures forall k :: 0 <= k < |chunks| ==> chunks[k] == ChunkAt(payload, m, id, |chunks|, k)
  {
    var n := Min(total, MOST_CHUNKS);
    chunks := [];
    for i := 0 to n
      invariant |chunks| == i
      invariant forall k :: 0 <= k < i ==> chunks[k] == ChunkAt(payload, m, id, n, k)
    {
      PieceStarts(|payload|, m, total, i);
      var chunk := MakeChunk(payload, m, id, n, i);
      chunks := chunks + [chunk];
    }
  }

  /** Lines 65 to 95 of `write`. */
  method Chunk(payload: string, maxChunk: nat, id: nat) returns (r: Chunked)
    requires |payload| < WORD / 2 && maxChunk < WORD && id < WORD
    ensures r == Outcome(payload, maxChunk, id)
  {
    if |payload| <= maxChunk {
      return Datagrams([payload]);
    }
    var m := (maxChunk + WORD - HEADER) % WORD;
    PerChunkIs(maxChunk);
    if m == 0 {
      return DividesByZero;
    }
    var total := (|payload| + m - 1) % WORD / m;
    var chunks: seq<string>;
    if maxChunk > HEADER {
      TotalIs(|payload|, maxChunk);
    } else {
      WrappedTotalIs(|payload|, maxChunk);
      assert Piece(payload, m, 0) == payload;
    }
    chunks := MakeChunks(payload, m, id, total);
    return Datagrams(chunks);
  }

  /** What comes out for every setting. */
  function Outcome(payload: string, maxChunk: nat, id: nat): Chunked {
    if |payload| <= maxChunk then Datagrams([payload])
    else if maxChunk > HEADER then Datagrams(Chunks(payload, maxChunk - HEADER, id))
    else if maxChunk == HEADER then DividesByZero
    else if |payload| + maxChunk > HEADER then Datagrams([])
    else Datagrams([Header(id, 0, 1) + payload])
  }

  lemma PerChunkIs(maxChunk: nat)
    requires maxChunk < WORD
    ensures (maxChunk + WORD - HEADER) % WORD ==
            if maxChunk >= HEADER then maxChunk - HEADER else maxChunk + WORD - HEADER
  {
  }

  lemma TotalIs(size: nat, maxChunk: nat)
    requires HEADER < maxChunk < size < WORD / 2
    ensures var m := maxChunk - HEADER; (size + m - 1) % WORD / m == CeilDiv(size, m)
  {
  }

  /** Below the header size the chunk count wraps around to nothing at all, or to one chunk too large. */
  lemma WrappedTotalIs(size: nat, maxChunk: nat)
    requires maxChunk < size < WORD / 2 && maxChunk < HEADER
    ensures var m := maxChunk + WORD - HEADER;
            (size + m - 1) % WORD / m == (if size + maxChunk > HEADER then 0 else 1) && m > size
  {
    var m := maxChunk + WORD - HEADER;
    if size + maxChunk > HEADER {
      assert (size + m - 1) % WORD == size + m - 1 - WORD < m;
      SmallQuotient(size + m - 1 - WORD, m);
    } else {
      assert (size + m - 1) % WORD == m + (size - 1);
      OneQuotient(size - 1, m);
    }
  }

  lemma SmallQuotient(a: nat, m: nat)
    requires a < m
    ensures a / m == 0
  {
  }

  lemma OneQuotient(a: nat, m: nat)
    requires a < m
    ensures (m + a) / m == 1
  {
  }

  lemma PieceStarts(size: nat, m: nat, total: nat, i: nat)
    requires m > 0 && i < total && (total * m < size + m || total == 1)
    ensures i * m <= size
  {
    if total > 1 {
      assert i * m <= (total - 1) * m;
    } else {
      assert i * m == 0;
    }
  }

  /** At most 128 chunks, and every one fits. */
  lemma ChunksFit(payload: string, maxChunk: nat, id: nat)
    requires maxChunk > HEADER && |payload| > maxChunk
    ensures var chunks := Chunks(payload, maxChunk - HEADER, id);
            1 <= |chunks| <= MOST_CHUNKS && forall i :: 0 <= i < |chunks| ==> HEADER < |chunks[i]| <= maxChunk
  {
    var m := maxChunk - HEADER;
    var n := CeilDiv(|payload|, m);
    forall i | 0 <= i < ChunkCount(payload, m) ensures 0 < |Piece(payload, m, i)| <= m {
      PieceInside(|payload|, m, n, i);
    }
  }

  lemma PieceInside(size: nat, m: nat, n: nat, i: nat)
    requires m > 0 && n * m < size + m && i < n
    ensures i * m < size
  {
    assert i * m <= (n - 1) * m;
  }

  /**
  The setting at which a payload too long for one datagram is sent properly: some chunk goes out, and all of them
  fit. Below the header size either nothing is sent or a datagram above the limit; at the header size there is no
  outcome.
  */
  lemma SentProperlyIff(payload: string, maxChunk: nat, id: nat)
    requires maxChunk < |payload| < WORD / 2
    ensures (Outcome(payload, maxChunk, id).Datagrams?
             && Outcome(payload, maxChunk, id).parts != []
             && forall d :: d in Outcome(payload, maxChunk, id).parts ==> |d| <= maxChunk)
            <==> maxChunk > HEADER
  {
    if maxChunk > HEADER {
      ChunksFit(payload, maxChunk, id);
    } else if maxChunk < HEADER && |payload| + maxChunk <= HEADER {
      assert Header(id, 0, 1) + payload in Outcome(payload, maxChunk, id).parts;
    }
  }
}
