/**
`mpsc_queue` used by one thread at a time: the ring buffer in place, proved to be a bounded FIFO for as long as its
64-bit counters run, wrap-around included. `RingMachine` treats any number of threads.
*/
module RingQueue {
  import opened Words

  /** The slots of queued tickets hold ticket + 1, the free slots the ticket that will use them next. */
  ghost predicate SlotsRight(sequence: seq<nat>, tail: nat, head: nat) {
    && |sequence| >= 2 && tail <= head <= tail + |sequence|
    && (forall t: nat :: tail <= t < head ==> sequence[Slot(t, |sequence|)] == t + 1)
    && (forall t: nat :: head <= t < tail + |sequence| ==> sequence[Slot(t, |sequence|)] == t)
  }

  /** The `n` values from ticket `first` on. */
  function Window<T>(data: seq<T>, first: nat, n: nat): seq<T>
    requires |data| > 0
  {
    seq(n, i requires 0 <= i < n => data[Slot(first + i, |data|)])
  }

  lemma EnqueueSlots(sequence: seq<nat>, tail: nat, head: nat)
    requires SlotsRight(sequence, tail, head) && head < tail + |sequence|
    ensures SlotsRight(sequence[Slot(head, |sequence|) := head + 1], tail, head + 1)
  {
    SlotsDistinctInLap(head, tail, |sequence|);
  }

  lemma DequeueSlots(sequence: seq<nat>, tail: nat, head: nat)
    requires SlotsRight(sequence, tail, head) && tail < head
    ensures SlotsRight(sequence[Slot(tail, |sequence|) := tail + |sequence|], tail + 1, head)
  {
    SlotsDistinctInLap(tail, tail, |sequence|);
    SlotOneLapLater(tail, |sequence|);
  }

  lemma WindowAppend<T>(data: seq<T>, first: nat, n: nat, v: T)
    requires n < |data|
    ensures Window(data[Slot(first + n, |data|) := v], first, n + 1) == Window(data, first, n) + [v]
  {
    SlotsDistinctInLap(first + n, first, |data|);
  }

  lemma WindowDrop<T>(data: seq<T>, first: nat, n: nat)
    requires 0 < n && |data| > 0
    ensures Window(data, first, n) == [data[Slot(first, |data|)]] + Window(data, first + 1, n - 1)
  {
    forall i | 1 <= i < n ensures Window(data, first, n)[i] == Window(data, first + 1, n - 1)[i - 1] {
      assert first + i == first + 1 + (i - 1);
    }
  }

  /** The machine holds the low 64 bits of the unbounded tickets. */
  ghost predicate Words64(words: seq<nat>, tickets: seq<nat>) {
    |words| == |tickets| && forall i :: 0 <= i < |words| ==> words[i] == Word(tickets[i])
  }

  lemma Words64Update(words: seq<nat>, tickets: seq<nat>, i: nat, t: nat)
    requires Words64(words, tickets) && i < |words|
    ensures Words64(words[i := Word(t)], tickets[i := t])
  {
  }

  /** What an enqueuer and a dequeuer find in their slots. */
  lemma TicketsSeen(tickets: seq<nat>, tail: nat, head: nat)
    requires SlotsRight(tickets, tail, head)
    ensures tickets[Slot(head, |tickets|)] == if head < tail + |tickets| then head else head + 1 - |tickets|
    ensures tickets[Slot(tail, |tickets|)] == if tail < head then tail + 1 else tail
  {
    SlotOneLapLater(tail, |tickets|);
  }

  lemma AfterEnqueue<T>(words: seq<nat>, tickets: seq<nat>, data: seq<T>, tail: nat, head: nat, cell: nat, v: T)
    requires Words64(words, tickets) && SlotsRight(tickets, tail, head) && |data| == |tickets|
    requires head < tail + |tickets| && cell == Slot(head, |tickets|)
    ensures Words64(words[cell := Word(head + 1)], tickets[cell := head + 1])
    ensures SlotsRight(tickets[cell := head + 1], tail, head + 1)
    ensures Window(data[cell := v], tail, head + 1 - tail) == Window(data, tail, head - tail) + [v]
  {
    Words64Update(words, tickets, cell, head + 1);
    EnqueueSlots(tickets, tail, head);
    WindowAppend(data, tail, head - tail, v);
  }

  lemma AfterDequeue<T>(words: seq<nat>, tickets: seq<nat>, data: seq<T>, tail: nat, head: nat, cell: nat)
    requires Words64(words, tickets) && SlotsRight(tickets, tail, head) && |data| == |tickets|
    requires tail < head && cell == Slot(tail, |tickets|)
    ensures Words64(words[cell := Word(tail + |tickets|)], tickets[cell := tail + |tickets|])
    ensures SlotsRight(tickets[cell := tail + |tickets|], tail + 1, head)
    ensures Window(data, tail, head - tail) == [data[cell]] + Window(data, tail + 1, head - (tail + 1))
  {
    Words64Update(words, tickets, cell, tail + |tickets|);
    DequeueSlots(tickets, tail, head);
    WindowDrop(data, tail, head - tail);
  }

  /** A defined difference of the words is the difference of the tickets. */
  lemma Compares(seen: nat, pos: nat, S: nat, P: nat)
    requires seen == Word(S) && pos == Word(P) && Exact(seen, pos) && -(HALF as int) <= S - P < HALF
    ensures Signed(seen) - Signed(pos) == S - P
  {
    ExactDifference(S, P);
  }

  lemma CrossesHalf(p: nat)
    ensures Word(p) < HALF <= Word(p + 1) <==> Word(p) == HALF - 1
  {
    WordAdd(p, 1);
  }

  class MpscQueue<T(0)> {
    const mask: nat
    const sequence: array<nat>
    const data: array<T>
    var head: nat
    var tail: nat

    // The same counters unbounded.
    ghost const exponent: nat
    ghost var tickets: seq<nat>
    ghost var claimed: nat
    ghost var taken: nat

    ghost predicate Valid()
      reads this, sequence, data
    {
      && mask + 1 == Pow2(exponent) == sequence.Length == data.Length && exponent <= 63
      && Words64(sequence[..], tickets) && head == Word(claimed) && tail == Word(taken)
      && SlotsRight(tickets, taken, claimed)
      && sequence as object != data as object
    }

    /** The queued values, oldest first. */
    ghost function Contents(): seq<T>
      requires Valid()
      reads this, sequence, data
    {
      Window(data[..], taken, claimed - taken)
    }

    /** The signed subtraction at line 58 is defined; outside this the source's behaviour is not. */
    ghost predicate EnqueueDefined()
      requires Valid()
      reads this, sequence, data
    {
      var seen := sequence[Slot(head, mask + 1)];
      seen < WORD && Exact(seen, head)
    }

    /** The same for line 80. */
    ghost predicate DequeueDefined()
      requires Valid()
      reads this, sequence, data
    {
      var seen := sequence[Slot(tail, mask + 1)];
      seen < WORD && Exact(seen, Word(tail + 1))
    }

    lemma SlotsOfWords()
      requires Valid()
      ensures Slot(head, mask + 1) == Slot(claimed, mask + 1) && Slot(tail, mask + 1) == Slot(taken, mask + 1)
      ensures mask < HALF
    {
      SlotOfWord(claimed, exponent);
      SlotOfWord(taken, exponent);
      Pow2Values();
      Pow2Grows(exponent, 63);
    }

    /** What the two loads see. */
    lemma Loads()
      requires Valid()
      ensures mask < HALF
      ensures sequence[Slot(head, mask + 1)] == Word(if claimed <= taken + mask then claimed else claimed - mask)
      ensures sequence[Slot(tail, mask + 1)] == Word(if taken < claimed then taken + 1 else taken)
    {
      SlotsOfWords();
      TicketsSeen(tickets, taken, claimed);
      assert sequence[..][Slot(claimed, mask + 1)] == Word(tickets[Slot(claimed, mask + 1)]);
      assert sequence[..][Slot(taken, mask + 1)] == Word(tickets[Slot(taken, mask + 1)]);
    }

    /** Only a full queue whose head has gone past 2^63 (modulo 2^64), its oldest ticket not, is outside. */
    lemma EnqueueDefinedIff()
      requires Valid()
      ensures EnqueueDefined() <==>
              !(|Contents()| == mask + 1 && Word(claimed - mask) < HALF <= Word(claimed))
    {
      Loads();
      OverflowsIff(if claimed <= taken + mask then claimed else claimed - mask, claimed);
    }

    /** Only an empty queue whose next ticket is 2^63 - 1 (modulo 2^64) is outside. */
    lemma DequeueDefinedIff()
      requires Valid()
      ensures DequeueDefined() <==> !(Contents() == [] && Word(taken) == HALF - 1)
    {
      Loads();
      NextWords();
      OverflowsIff(if taken < claimed then taken + 1 else taken, taken + 1);
      CrossesHalf(taken);
    }

    /** Below 2^63 both operations are always defined. */
    lemma DefinedBelowHalf()
      requires Valid() && claimed < HALF
      ensures EnqueueDefined() && (taken + 1 < HALF ==> DequeueDefined())
    {
      EnqueueDefinedIff();
      DequeueDefinedIff();
    }

    /** What the two operations store. */
    lemma NextWords()
      requires Valid()
      ensures Word(head + 1) == Word(claimed + 1) && Word(tail + 1) == Word(taken + 1)
      ensures Word(tail + mask + 1) == Word(taken + mask + 1)
    {
      WordAdd(claimed, 1);
      WordAdd(taken, 1);
      WordAdd(taken, mask + 1);
    }

    /** The constructor once its test has passed. */
    constructor (capacity: nat, ghost exponent: nat)
      requires capacity == Pow2(exponent) && exponent <= 63
      ensures fresh(sequence) && fresh(data) && head == tail == 0 && mask + 1 == capacity
      ensures capacity >= 2 ==> Valid() && Contents() == [] && claimed == taken == 0
    {
      mask := capacity - 1;
      this.exponent := exponent;
      sequence := new nat[capacity](i => i);
      data := new T[capacity];
      head, tail := 0, 0;
      claimed, taken := 0, 0;
      tickets := seq(capacity, i => i);
      new;
      Pow2Values();
      Pow2Grows(exponent, 63);
      forall t: nat | t < capacity ensures Slot(t, capacity) == t {
        QuotientIsUnique(t, 0, t, capacity);
      }
    }

    /** mpsc_queue's constructor: null stands for std::invalid_argument. */
    static method Create(capacity: nat) returns (q: MpscQueue?<T>)
      requires capacity < WORD
      ensures q == null <==> !IsPower(capacity)
      ensures q != null ==> fresh(q) && fresh(q.sequence) && fresh(q.data) && q.mask + 1 == capacity
      ensures q != null && capacity >= 2 ==> q.Valid() && q.Contents() == [] && q.claimed == q.taken == 0
    {
      if capacity == 0 {
        return null;
      }
      PowerTest(capacity);
      if And(capacity, capacity - 1) != 0 {
        return null;
      }
      PowersInWord(capacity);
      ghost var k: nat :| k <= 63 && capacity == Pow2(k);
      q := new MpscQueue<T>(capacity, k);
    }

    /** pos & buffer_mask_ */
    method CellOf(pos: nat) returns (cell: nat)
      requires mask + 1 == Pow2(exponent)
      ensures cell == Slot(pos, mask + 1)
    {
      MaskIsSlot(pos, exponent);
      cell := And(pos, mask);
    }

    /** Lines 60, 69 and 70. */
    method Publish(pos: nat, cell: nat, value: T)
      requires Valid() && claimed <= taken + mask && pos == head && cell == Slot(claimed, mask + 1)
      modifies this`head, this`claimed, this`tickets, sequence, data
      ensures Valid() && taken == old(taken) && claimed == old(claimed) + 1
      ensures Contents() == old(Contents()) + [value]
    {
      ghost var slots: seq<nat>, values := sequence[..], data[..];
      NextWords();
      AfterEnqueue(slots, tickets, values, taken, claimed, cell, value);
      head := Word(pos + 1);
      data[cell] := value;
      sequence[cell] := Word(pos + 1);
      tickets := tickets[cell := claimed + 1];
      claimed := claimed + 1;
      assert sequence[..] == slots[cell := Word(claimed)] && data[..] == values[cell := value];
    }

    /** Lines 82, 91 and 92. */
    method Release(pos: nat, cell: nat) returns (value: T)
      requires Valid() && taken < claimed && pos == tail && cell == Slot(taken, mask + 1)
      modifies this`tail, this`taken, this`tickets, sequence
      ensures Valid() && claimed == old(claimed) && taken == old(taken) + 1
      ensures [value] + Contents() == old(Contents())
    {
      ghost var slots: seq<nat> := sequence[..];
      ghost var reuse := taken + |tickets|;
      NextWords();
      AfterDequeue(slots, tickets, data[..], taken, claimed, cell);
      ghost var rest := Window(data[..], taken + 1, claimed - (taken + 1));
      tail := Word(pos + 1);
      value := data[cell];
      sequence[cell] := Word(pos + mask + 1);
      assert sequence[..] == slots[cell := Word(reuse)];
      tickets := tickets[cell := reuse];
      taken := taken + 1;
      assert Contents() == rest;
    }

    method Enqueue(value: T) returns (ok: bool)
      requires Valid() && EnqueueDefined()
      modifies this`head, this`claimed, this`tickets, sequence, data
      ensures Valid() && taken == old(taken)
      ensures ok <==> |old(Contents())| < mask + 1
      ensures claimed == old(claimed) + if ok then 1 else 0
      ensures Contents() == if ok then old(Contents()) + [value] else old(Contents())
    {
      SlotsOfWords();
      Loads();
      var pos: nat := head;
      var cell := CellOf(pos);
      Compares(sequence[cell], pos, if claimed <= taken + mask then claimed else claimed - mask, claimed);
      var dif := Signed(sequence[cell]) - Signed(pos);
      if dif < 0 {
        return false;
      }
      if dif > 0 {
        // Another thread has moved head_ since it was loaded; here there is none.
        assert false;
      }
      Publish(pos, cell, value);
      return true;
    }

    /** The source's `data` argument keeps its `initial` value when the queue is empty. */
    method Dequeue(initial: T) returns (ok: bool, value: T)
      requires Valid() && DequeueDefined()
      modifies this`tail, this`taken, this`tickets, sequence
      ensures Valid() && claimed == old(claimed)
      ensures ok <==> old(Contents()) != []
      ensures taken == old(taken) + if ok then 1 else 0
      ensures if ok then [value] + Contents() == old(Contents()) else Contents() == old(Contents()) && value == initial
    {
      value := initial;
      SlotsOfWords();
      Loads();
      NextWords();
      var pos: nat := tail;
      var cell := CellOf(pos);
      Compares(sequence[cell], Word(pos + 1), if taken < claimed then taken + 1 else taken, taken + 1);
      var dif := Signed(sequence[cell]) - Signed(Word(pos + 1));
      if dif < 0 {
        return false, value;
      }
      if dif > 0 {
        // Another thread has moved tail_ since it was loaded; here there is none.
        assert false;
      }
      value := Release(pos, cell);
      return true, value;
    }
  }

  // Runs to the states in which the subtractions overflow, for every capacity that works at all.

  /** `n` values go through an empty queue, one at a time. */
  method PassThrough(q: MpscQueue<nat>, n: nat)
    requires q.Valid() && q.Contents() == [] && q.claimed + n < HALF
    modifies q, q.sequence, q.data
    ensures q.Valid() && q.Contents() == [] && q.taken == old(q.taken) + n
  {
    for i := 0 to n
      invariant q.Valid() && q.Contents() == [] && q.taken == old(q.taken) + i
    {
      q.DefinedBelowHalf();
      var accepted := q.Enqueue(i);
      q.DefinedBelowHalf();
      var found, value := q.Dequeue(0);
    }
  }

  /** `n` values go in and stay. */
  method PutIn(q: MpscQueue<nat>, n: nat)
    requires q.Valid() && q.Contents() == [] && n <= q.mask + 1 && q.claimed + n <= HALF
    modifies q, q.sequence, q.data
    ensures q.Valid() && |q.Contents()| == n && q.taken == old(q.taken)
  {
    for i := 0 to n
      invariant q.Valid() && |q.Contents()| == i && q.taken == old(q.taken)
    {
      q.DefinedBelowHalf();
      var accepted := q.Enqueue(i);
    }
  }

  /** 2^63 - 1 values pass through; the next dequeue, of the empty queue, subtracts beyond 64 bits. */
  method ReachDequeueOverflow(capacity: nat) returns (q: MpscQueue?<nat>)
    requires 2 <= capacity < WORD && IsPower(capacity)
    ensures q != null && q.Valid() && q.mask + 1 == capacity
    ensures q.Contents() == [] && q.taken == HALF - 1 && !q.DequeueDefined()
  {
    q := MpscQueue<nat>.Create(capacity);
    PassThrough(q, HALF - 1);
    q.DequeueDefinedIff();
  }

  /** All but the last lap below 2^63 passes through and the last fills the queue; so does the next enqueue. */
  method ReachEnqueueOverflow(capacity: nat) returns (q: MpscQueue?<nat>)
    requires 2 <= capacity <= HALF && IsPower(capacity)
    ensures q != null && q.Valid() && q.mask + 1 == capacity
    ensures |q.Contents()| == capacity && q.claimed == HALF && !q.EnqueueDefined()
  {
    q := MpscQueue<nat>.Create(capacity);
    PassThrough(q, HALF - capacity);
    PutIn(q, capacity);
    q.EnqueueDefinedIff();
  }

  /** The queue async_dispatcher's constructor makes; null stands for std::invalid_argument. */
  method DispatcherQueue<T(0)>(queueCapacity: nat, batchSize: nat) returns (q: MpscQueue?<T>)
    requires queueCapacity < WORD && batchSize < WORD
    ensures q == null <==> queueCapacity == 0 || batchSize == 0 || queueCapacity > HALF
    ensures q != null ==> q.Valid() && q.Contents() == [] && IsRoundedUp(queueCapacity, q.mask + 1)
  {
    if queueCapacity == 0 {
      return null;
    }
    if batchSize == 0 {
      return null;
    }
    var capacity := RoundUpToPowerOf2(queueCapacity);
    RoundedUpFits(queueCapacity, capacity);
    q := MpscQueue<T>.Create(capacity);
  }

  lemma RoundedUpFits(size: nat, r: nat)
    requires size <= HALF ==> IsRoundedUp(size, r)
    requires size > HALF ==> r == 0
    ensures r <= HALF && (IsPower(r) <==> size <= HALF)
  {
    Pow2Values();
  }
}
