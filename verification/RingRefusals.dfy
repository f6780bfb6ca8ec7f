/**
What the two refusals of the ring mean, and why they are not those of a FIFO: `enqueue` may say full with room in the
queue, and `dequeue` may say empty with published values in it. Exactly when, and runs in which it happens.
*/
module RingRefusals {
  import opened TicketLog
  import opened Words
  import opened RingMachine
  import opened RingRuns

  /** Some thread has claimed ticket `t` to dequeue it and has not given the slot back. */
  ghost predicate HeldByReader<T(!new)>(s: State<T>, t: nat) {
    exists id :: id in s.threads && s.threads[id].Reading(t)
  }

  /** Some thread has claimed ticket `t` to enqueue and has not published it. */
  ghost predicate HeldByWriter<T(!new)>(s: State<T>, t: nat) {
    exists id :: id in s.threads && s.threads[id].Writing(t)
  }

  lemma ReaderHolds<T(!new)>(s: State<T>, t: nat)
    requires Inv(s)
    ensures HeldByReader(s, t) <==> t < s.tail && t !in s.log.released
  {
    if HeldByReader(s, t) {
      var id :| id in s.threads && s.threads[id].Reading(t);
      assert ThreadOk(s, s.threads[id]);
    }
  }

  lemma WriterHolds<T(!new)>(s: State<T>, t: nat)
    requires Inv(s)
    ensures HeldByWriter(s, t) <==> t < s.head && t !in s.log.published
  {
    if HeldByWriter(s, t) {
      var id :| id in s.threads && s.threads[id].Writing(t);
      assert ThreadOk(s, s.threads[id]);
    }
  }

  /**
  With fewer than `capacity` tickets in the queue an enqueue is refused if and only if the ticket one lap before the
  head has been taken by a dequeuer that still holds its slot.
  */
  lemma FullWithRoomIff<T(!new)>(s: State<T>)
    requires Inv(s)
    ensures !s.log.CanClaim() && s.head - s.tail < s.capacity <==>
            s.capacity <= s.head < s.tail + s.capacity && HeldByReader(s, s.head - s.capacity)
  {
    if s.head >= s.capacity {
      ReaderHolds(s, s.head - s.capacity);
    }
  }

  /** With tickets in the queue a dequeue is refused if and only if the oldest is claimed and not yet published. */
  lemma EmptyWithQueuedIff<T(!new)>(s: State<T>)
    requires Inv(s)
    ensures !s.log.CanTake() && s.tail < s.head <==> HeldByWriter(s, s.tail)
  {
    WriterHolds(s, s.tail);
  }

  // Runs in which both happen, with two slots and two threads.

  function Two(head: nat, tail: nat, sequence: seq<nat>, data: seq<nat>, p: Pc<nat>, q: Pc<nat>, log: Log<nat>):
      State<nat> {
    State(2, head, tail, sequence, data, map[0 := p, 1 := q], log)
  }

  /** An enqueue by thread `id` runs from its start to its claim. */
  lemma Claims(s: State<nat>, id: nat, v: nat)
    requires Reachable(s) && Shaped(s) && id in s.threads && s.threads[id] == Idle
    requires s.sequence[Slot(s.head, s.capacity)] == s.head
    ensures Reachable(s.With(id, EnqData(v, s.head)).(head := s.head + 1, log := s.log.Claim(v)))
  {
    Looks(s, id, v);
    var s2 := s.With(id, EnqSequence(v, s.head));
    var s3 := s.With(id, EnqSwap(v, s.head));
    WithTwice(s, id, EnqSequence(v, s.head), EnqSwap(v, s.head));
    ReachStep(s2, id, Tau, s3);
    WithTwice(s, id, EnqSwap(v, s.head), EnqData(v, s.head));
    ReachStep(s3, id, Claimed(s.head, v),
              s.With(id, EnqData(v, s.head)).(head := s.head + 1, log := s.log.Claim(v)));
  }

  /** It loads the head. */
  lemma Looks(s: State<nat>, id: nat, v: nat)
    requires Reachable(s) && Shaped(s) && id in s.threads && s.threads[id] == Idle
    ensures Reachable(s.With(id, EnqSequence(v, s.head)))
  {
    var s1 := s.With(id, EnqHead(v));
    ReachStep(s, id, Tau, s1);
    WithTwice(s, id, EnqHead(v), EnqSequence(v, s.head));
    ReachStep(s1, id, Tau, s.With(id, EnqSequence(v, s.head)));
  }

  /** It writes and publishes. */
  lemma Publishes(s: State<nat>, id: nat, v: nat, pos: nat)
    requires Reachable(s) && Shaped(s) && id in s.threads && s.threads[id] == EnqData(v, pos)
    ensures Reachable(s.With(id, Idle).(data := s.data[Slot(pos, s.capacity) := v],
                                        sequence := s.sequence[Slot(pos, s.capacity) := pos + 1],
                                        log := s.log.Publish(pos)))
  {
    var s1 := s.With(id, EnqPublish(pos)).(data := s.data[Slot(pos, s.capacity) := v]);
    ReachStep(s, id, Tau, s1);
    WithTwice(s, id, EnqPublish(pos), Idle);
    ReachStep(s1, id, Published(pos),
              s.With(id, Idle).(data := s.data[Slot(pos, s.capacity) := v],
                                sequence := s.sequence[Slot(pos, s.capacity) := pos + 1], log := s.log.Publish(pos)));
  }

  /** A dequeue loads the tail. */
  lemma LooksAtTail(s: State<nat>, id: nat)
    requires Reachable(s) && Shaped(s) && id in s.threads && s.threads[id] == Idle
    ensures Reachable(s.With(id, DeqSequence(s.tail)))
  {
    var s1 := s.With(id, DeqTail);
    ReachStep(s, id, Tau, s1);
    WithTwice(s, id, DeqTail, DeqSequence(s.tail));
    ReachStep(s1, id, Tau, s.With(id, DeqSequence(s.tail)));
  }

  /** A dequeue takes the oldest ticket. */
  lemma Takes(s: State<nat>, id: nat)
    requires Reachable(s) && Shaped(s) && id in s.threads && s.threads[id] == Idle
    requires s.sequence[Slot(s.tail, s.capacity)] == s.tail + 1
    ensures Reachable(s.With(id, DeqData(s.tail)).(tail := s.tail + 1, log := s.log.Take()))
  {
    LooksAtTail(s, id);
    var s2 := s.With(id, DeqSequence(s.tail));
    var s3 := s.With(id, DeqSwap(s.tail));
    WithTwice(s, id, DeqSequence(s.tail), DeqSwap(s.tail));
    ReachStep(s2, id, Tau, s3);
    WithTwice(s, id, DeqSwap(s.tail), DeqData(s.tail));
    ReachStep(s3, id, Took(s.tail), s.With(id, DeqData(s.tail)).(tail := s.tail + 1, log := s.log.Take()));
  }

  lemma WithTwice(s: State<nat>, id: nat, p: Pc<nat>, q: Pc<nat>)
    ensures s.With(id, p).With(id, q) == s.With(id, q)
  {
    assert s.threads[id := p][id := q] == s.threads[id := q];
  }

  function TwoSlots(): State<nat> {
    Two(0, 0, [0, 1], [9, 9], Idle, Idle, Empty(2))
  }

  lemma SlotsOfTwo()
    ensures Slot(0, 2) == 0 && Slot(1, 2) == 1 && Slot(2, 2) == 0
  {
  }

  /** Thread 0 has claimed ticket 0. */
  function OneClaimed(): State<nat> {
    Two(1, 0, [0, 1], [9, 9], EnqData(7, 0), Idle, Empty<nat>(2).Claim(7))
  }

  lemma ReachOneClaimed()
    ensures Reachable(OneClaimed())
  {
    ReachInit(TwoSlots());
    SlotsOfTwo();
    Claims(TwoSlots(), 0, 7);
    assert TwoSlots().With(0, EnqData(7, 0)).threads == OneClaimed().threads;
  }

  /** And thread 1 has enqueued under ticket 1. */
  function SecondPublished(): State<nat> {
    Two(2, 0, [0, 2], [9, 8], EnqData(7, 0), Idle, Empty<nat>(2).Claim(7).Claim(8).Publish(1))
  }

  lemma ReachSecondPublished()
    ensures Reachable(SecondPublished())
  {
    ReachOneClaimed();
    SlotsOfTwo();
    var s := OneClaimed();
    Claims(s, 1, 8);
    var s1 := s.With(1, EnqData(8, 1)).(head := 2, log := s.log.Claim(8));
    Publishes(s1, 1, 8, 1);
    assert s1.With(1, Idle).threads == SecondPublished().threads;
    assert s1.data[1 := 8] == [9, 8] && s1.sequence[1 := 2] == [0, 2];
  }

  /** A dequeue says empty although ticket 1 has been published. */
  lemma SaysEmptyThoughQueued() returns (s: State<nat>, t: State<nat>)
    ensures Reachable(s) && Shaped(s) && Step(s, 1, SaidEmpty(0), t)
    ensures s.tail == 0 && s.head == 2 && 1 in s.log.published
  {
    ReachSecondPublished();
    LooksAtTail(SecondPublished(), 1);
    SlotsOfTwo();
    s := SecondPublished().With(1, DeqSequence(0));
    t := s.With(1, Idle);
  }

  /** Both slots hold published values. */
  function BothPublished(): State<nat> {
    Two(2, 0, [1, 2], [7, 8], Idle, Idle, Empty<nat>(2).Claim(7).Claim(8).Publish(1).Publish(0))
  }

  lemma ReachBothPublished()
    ensures Reachable(BothPublished())
  {
    ReachSecondPublished();
    SlotsOfTwo();
    var s := SecondPublished();
    Publishes(s, 0, 7, 0);
    assert s.With(0, Idle).threads == BothPublished().threads;
    assert s.data[0 := 7] == [7, 8] && s.sequence[0 := 1] == [1, 2];
  }

  /** Thread 1 has taken ticket 0 and not released its slot. */
  function OneTaken(): State<nat> {
    Two(2, 1, [1, 2], [7, 8], Idle, DeqData(0), BothPublished().log.Take())
  }

  lemma ReachOneTaken()
    ensures Reachable(OneTaken())
  {
    ReachBothPublished();
    SlotsOfTwo();
    Takes(BothPublished(), 1);
    assert BothPublished().With(1, DeqData(0)).threads == OneTaken().threads;
  }

  /** An enqueue says full although there is one ticket in a queue of two slots. */
  lemma SaysFullThoughRoom() returns (s: State<nat>, t: State<nat>)
    ensures Reachable(s) && Shaped(s) && Step(s, 0, SaidFull(2), t)
    ensures s.head - s.tail == 1 < s.capacity
  {
    ReachOneTaken();
    Looks(OneTaken(), 0, 6);
    SlotsOfTwo();
    s := OneTaken().With(0, EnqSequence(6, 2));
    t := s.With(0, Idle);
  }
}
