/**
The lock-free ring of `mpsc_queue` as a step machine: any number of threads, each running `enqueue`
or `dequeue`, every atomic load, compare-exchange, data move and store being one step of its own.
Steps are sequentially consistent. `compare_exchange_weak` may fail for no reason.

The field `log` is history: steps append to it without asking whether the ticket log allows what they
do. That it always does is what `StepRefines` proves.
*/
module RingMachine {
  import opened TicketLog
  import opened Words

  /** Where a thread is inside `enqueue` or `dequeue`. */
  datatype Pc<T> =
    | Idle
    | EnqHead(value: T)                     // about to load head_
    | EnqSequence(value: T, pos: nat)       // about to load the slot's sequence
    | EnqSwap(value: T, pos: nat)           // sequence equalled pos: about to swap head_ from pos to pos + 1
    | EnqData(value: T, pos: nat)           // ticket pos is ours: about to write the slot's data
    | EnqPublish(pos: nat)                  // about to store pos + 1 into the slot's sequence
    | DeqTail                               // about to load tail_
    | DeqSequence(pos: nat)
    | DeqSwap(pos: nat)
    | DeqData(pos: nat)                     // ticket pos is ours: about to read the slot's data
    | DeqRelease(pos: nat, value: T)        // about to store pos + mask + 1 into the slot's sequence
  {
    /** Between claiming ticket `t` and publishing it. */
    predicate Writing(t: nat) {
      (EnqData? || EnqPublish?) && pos == t
    }

    /** Between claiming ticket `t` and releasing its slot. */
    predicate Reading(t: nat) {
      (DeqData? || DeqRelease?) && pos == t
    }

    predicate WriterSide() {
      EnqData? || EnqPublish?
    }

    predicate DequeueSide() {
      DeqTail? || DeqSequence? || DeqSwap? || DeqData? || DeqRelease?
    }

    predicate OwnsSlot() {
      EnqData? || EnqPublish? || DeqData? || DeqRelease?
    }
  }

  datatype State<T> = State(
    capacity: nat,
    head: nat,
    tail: nat,
    sequence: seq<nat>,
    data: seq<T>,
    threads: map<nat, Pc<T>>,
    log: Log<T>
  ) {
    function With(id: nat, pc: Pc<T>): State<T> {
      this.(threads := threads[id := pc])
    }
  }

  /** The constructor: slot i starts with sequence i; its data is arbitrary. */
  ghost predicate Init<T(!new)>(s: State<T>) {
    && s.capacity > 0
    && s.head == s.tail == 0
    && |s.sequence| == |s.data| == s.capacity
    && (forall i :: 0 <= i < s.capacity ==> s.sequence[i] == i)
    && (forall id :: id in s.threads ==> s.threads[id] == Idle)
    && s.log == Empty(s.capacity)
  }

  /** Shape only: what the steps need to be well formed. */
  predicate Shaped<T>(s: State<T>) {
    s.capacity > 0 && |s.sequence| == |s.data| == s.capacity
  }

  /** One step of thread `id`. */
  ghost predicate Step<T(!new)>(s: State<T>, id: nat, a: Action<T>, s': State<T>)
    requires Shaped(s)
  {
    && id in s.threads
    && match s.threads[id]
       case Idle =>
         a == Tau && ((exists v :: s' == s.With(id, EnqHead(v))) || s' == s.With(id, DeqTail))
       case EnqHead(v) =>
         a == Tau && s' == s.With(id, EnqSequence(v, s.head))
       case EnqSequence(v, pos) =>
         var seen := s.sequence[Slot(pos, s.capacity)];
         if seen == pos then a == Tau && s' == s.With(id, EnqSwap(v, pos))
         else if seen < pos then a == SaidFull(pos) && s' == s.With(id, Idle)
         else a == Tau && s' == s.With(id, EnqHead(v))
       case EnqSwap(v, pos) =>
         || (s.head == pos && a == Claimed(pos, v)
             && s' == s.With(id, EnqData(v, pos)).(head := pos + 1, log := s.log.Claim(v)))
         || (a == Tau && s' == s.With(id, EnqSequence(v, s.head)))
       case EnqData(v, pos) =>
         a == Tau && s' == s.With(id, EnqPublish(pos)).(data := s.data[Slot(pos, s.capacity) := v])
       case EnqPublish(pos) =>
         a == Published(pos)
         && s' == s.With(id, Idle).(sequence := s.sequence[Slot(pos, s.capacity) := pos + 1], log := s.log.Publish(pos))
       case DeqTail =>
         a == Tau && s' == s.With(id, DeqSequence(s.tail))
       case DeqSequence(pos) =>
         var seen := s.sequence[Slot(pos, s.capacity)];
         if seen == pos + 1 then a == Tau && s' == s.With(id, DeqSwap(pos))
         else if seen < pos + 1 then a == SaidEmpty(pos) && s' == s.With(id, Idle)
         else a == Tau && s' == s.With(id, DeqTail)
       case DeqSwap(pos) =>
         || (s.tail == pos && a == Took(pos)
             && s' == s.With(id, DeqData(pos)).(tail := pos + 1, log := s.log.Take()))
         || (a == Tau && s' == s.With(id, DeqSequence(s.tail)))
       case DeqData(pos) =>
         a == Tau && s' == s.With(id, DeqRelease(pos, s.data[Slot(pos, s.capacity)]))
       case DeqRelease(pos, v) =>
         a == Returned(pos, v)
         && s' == s.With(id, Idle).(sequence := s.sequence[Slot(pos, s.capacity) := pos + s.capacity],
                                    log := s.log.Release(pos))
  }

  /** The ring agrees with its log. */
  ghost predicate Consistent<T(!new)>(s: State<T>) {
    && Shaped(s) && s.capacity >= 2
    && s.log.WellFormed() && s.log.capacity == s.capacity
    && |s.log.items| == s.head && s.log.taken == s.tail
  }

  /** Each slot's sequence is one of the two values its current ticket allows; published data is in place. */
  ghost predicate SlotsOk<T(!new)>(s: State<T>)
    requires Consistent(s)
  {
    && (forall t: nat :: s.tail <= t < s.head ==>
          s.sequence[Slot(t, s.capacity)] == if t in s.log.published then t + 1 else t)
    && (forall t: nat :: s.head <= t < s.tail + s.capacity ==>
          s.sequence[Slot(t, s.capacity)] ==
          if t < s.capacity || t - s.capacity in s.log.released then t else t - s.capacity + 1)
    && (forall t: nat :: s.tail <= t < s.head && t in s.log.published ==>
          s.data[Slot(t, s.capacity)] == s.log.items[t])
  }

  ghost predicate ThreadOk<T(!new)>(s: State<T>, pc: Pc<T>)
    requires Consistent(s)
  {
    match pc
    case EnqSequence(_, pos) => pos <= s.head
    case EnqSwap(_, pos) => pos <= s.head && (pos == s.head ==> s.log.CanClaim())
    case EnqData(v, pos) => s.tail <= pos < s.head && pos !in s.log.published && s.log.items[pos] == v
    case EnqPublish(pos) =>
      && s.tail <= pos < s.head && pos !in s.log.published
      && s.data[Slot(pos, s.capacity)] == s.log.items[pos]
    case DeqSequence(pos) => pos <= s.tail
    case DeqSwap(pos) => pos <= s.tail && (pos == s.tail ==> s.log.CanTake())
    case DeqData(pos) =>
      && pos < s.tail && pos !in s.log.released
      && s.data[Slot(pos, s.capacity)] == s.log.items[pos]
    case DeqRelease(pos, v) => pos < s.tail && pos !in s.log.released && s.log.items[pos] == v
    case _ => true
  }

  ghost predicate ThreadsOk<T(!new)>(s: State<T>)
    requires Consistent(s)
  {
    forall id :: id in s.threads ==> ThreadOk(s, s.threads[id])
  }

  /** A ticket has at most one writer and at most one reader. */
  ghost predicate Exclusive<T(!new)>(s: State<T>) {
    forall i, j :: i in s.threads && j in s.threads && i != j &&
                   s.threads[i].OwnsSlot() && s.threads[j].OwnsSlot() &&
                   s.threads[i].WriterSide() == s.threads[j].WriterSide()
                   ==> s.threads[i].pos != s.threads[j].pos
  }

  /** A claimed ticket that is not yet published or released has a thread working on it. */
  ghost predicate Attended<T(!new)>(s: State<T>) {
    && (forall t: nat :: t < s.head && t !in s.log.published ==>
          exists id :: id in s.threads && s.threads[id].Writing(t))
    && (forall t: nat :: t < s.tail && t !in s.log.released ==>
          exists id :: id in s.threads && s.threads[id].Reading(t))
  }

  ghost predicate Inv<T(!new)>(s: State<T>) {
    Consistent(s) && SlotsOk(s) && ThreadsOk(s) && Exclusive(s) && Attended(s)
  }

  lemma InitInv<T(!new)>(s: State<T>)
    requires Init(s) && s.capacity >= 2
    ensures Inv(s)
  {
    assert forall t: nat :: t < s.capacity ==> Slot(t, s.capacity) == t;
  }

  /** The ticket in the current lap whose slot `pos` shares. */
  lemma {:induction false} CurrentTicket<T(!new)>(s: State<T>, pos: nat) returns (t: nat)
    requires Consistent(s) && pos < s.tail + s.capacity
    ensures s.tail <= t < s.tail + s.capacity && Slot(t, s.capacity) == Slot(pos, s.capacity)
    ensures if pos < s.tail then t >= pos + s.capacity else t == pos
    decreases s.tail + s.capacity - pos
  {
    if pos >= s.tail {
      t := pos;
    } else {
      SlotOneLapLater(pos, s.capacity);
      t := CurrentTicket(s, pos + s.capacity);
    }
  }

  /** What the sequence load tells an enqueuer. */
  lemma EnqueueLoad<T(!new)>(s: State<T>, pos: nat)
    requires Inv(s) && pos <= s.head
    ensures s.sequence[Slot(pos, s.capacity)] < pos <==> pos == s.head && !s.log.CanClaim()
    ensures pos == s.head ==> (s.sequence[Slot(pos, s.capacity)] == pos <==> s.log.CanClaim())
  {
    if pos < s.tail + s.capacity {
      var t := CurrentTicket(s, pos);
    } else {
      SlotOneLapLater(s.tail, s.capacity);
    }
  }

  /** What the sequence load tells a dequeuer. */
  lemma DequeueLoad<T(!new)>(s: State<T>, pos: nat)
    requires Inv(s) && pos <= s.tail
    ensures s.sequence[Slot(pos, s.capacity)] < pos + 1 <==> pos == s.tail && !s.log.CanTake()
    ensures pos == s.tail ==> (s.sequence[Slot(pos, s.capacity)] == pos + 1 <==> s.log.CanTake())
  {
    var t := CurrentTicket(s, pos);
  }

  /** No sequence has reached the end of the lap after the head. */
  lemma LoadsBounded<T(!new)>(s: State<T>, pos: nat)
    requires Inv(s) && pos <= s.head
    ensures s.sequence[Slot(pos, s.capacity)] < s.head + s.capacity
  {
    if pos < s.tail + s.capacity {
      var t := CurrentTicket(s, pos);
    } else {
      SlotOneLapLater(s.tail, s.capacity);
    }
  }

  /**
  The signed 64-bit differences of lines 58 and 80 are the unbounded ones, and do not overflow, as long as the head
  is at least one lap below 2^63: what is loaded then is below 2^63 too.
  */
  lemma LoadsAreExact<T(!new)>(s: State<T>, pos: nat)
    requires Inv(s) && s.head + s.capacity < HALF && pos <= s.head
    ensures var seen := s.sequence[Slot(pos, s.capacity)];
            && seen < HALF
            && Exact(seen, pos) && Signed(seen) - Signed(pos) == seen - pos
            && Exact(seen, pos + 1) && Signed(seen) - Signed(pos + 1) == seen as int - (pos + 1)
  {
    LoadsBounded(s, pos);
    SignedDifference(s.sequence[Slot(pos, s.capacity)], pos);
    SignedDifference(s.sequence[Slot(pos, s.capacity)], pos + 1);
  }

  // Preservation. A step is described by what it does to the stepping thread's ownership of a slot
  // (Moved) and, apart from that, to the buffer; other threads are handled once for all steps.

  /** The program counter of `id` moves as the action `a` says; no other thread moves. */
  ghost predicate Moved<T(!new)>(s: State<T>, id: nat, a: Action<T>, s': State<T>) {
    && id in s.threads && id in s'.threads
    && s'.threads == s.threads[id := s'.threads[id]]
    && var old', new' := s.threads[id], s'.threads[id];
       match a
       case Claimed(t, _) => !old'.OwnsSlot() && new'.Writing(t)
       case Published(t) => old'.Writing(t) && !new'.OwnsSlot()
       case Took(t) => !old'.OwnsSlot() && new'.Reading(t)
       case Returned(t, _) => old'.Reading(t) && !new'.OwnsSlot()
       case _ => (old'.OwnsSlot() || new'.OwnsSlot()) ==>
                   || (old'.EnqData? && new'.EnqPublish? && old'.pos == new'.pos)
                   || (old'.DeqData? && new'.DeqRelease? && old'.pos == new'.pos)
  }

  /** The part of ThreadsOk that says which tickets slot owners hold. */
  ghost predicate OwnersInRange<T(!new)>(s: State<T>) {
    forall i :: i in s.threads && s.threads[i].OwnsSlot() ==>
                  if s.threads[i].WriterSide() then s.threads[i].pos < |s.log.items| else s.threads[i].pos < s.log.taken
  }

  lemma OwnersOk<T(!new)>(s: State<T>)
    requires Consistent(s) && ThreadsOk(s)
    ensures OwnersInRange(s)
  {
    forall i | i in s.threads ensures ThreadOk(s, s.threads[i]) {
    }
  }

  lemma ExclusiveKept<T(!new)>(s: State<T>, id: nat, a: Action<T>, s': State<T>)
    requires OwnersInRange(s) && Exclusive(s) && Allowed(s.log, a, s'.log) && Moved(s, id, a, s')
    ensures Exclusive(s')
  {
    forall i | i in s.threads && i != id && s.threads[i].OwnsSlot() && s'.threads[id].OwnsSlot()
      ensures s.threads[i].WriterSide() == s'.threads[id].WriterSide() ==> s.threads[i].pos != s'.threads[id].pos
    {
    }
  }

  lemma AttendedKept<T(!new)>(s: State<T>, id: nat, a: Action<T>, s': State<T>)
    requires Attended(s) && Allowed(s.log, a, s'.log) && Moved(s, id, a, s')
    requires |s.log.items| == s.head && s.log.taken == s.tail && |s'.log.items| == s'.head && s'.log.taken == s'.tail
    ensures Attended(s')
  {
    forall t: nat | t < s'.head && t !in s'.log.published
      ensures exists i :: i in s'.threads && s'.threads[i].Writing(t)
    {
      if a.Claimed? && a.ticket == t {
        assert s'.threads[id].Writing(t);
      } else {
        var i :| i in s.threads && s.threads[i].Writing(t);
        assert s'.threads[i].Writing(t);
      }
    }
    forall t: nat | t < s'.tail && t !in s'.log.released
      ensures exists i :: i in s'.threads && s'.threads[i].Reading(t)
    {
      if a.Took? && a.ticket == t {
        assert s'.threads[id].Reading(t);
      } else {
        var i :| i in s.threads && s.threads[i].Reading(t);
        assert s'.threads[i].Reading(t);
      }
    }
  }

  /** The program counter of a thread that does not own the ticket being published or released stays right. */
  lemma OtherKept<T(!new)>(s: State<T>, a: Action<T>, s': State<T>, pc: Pc<T>)
    requires Consistent(s) && Consistent(s') && s'.capacity == s.capacity && Allowed(s.log, a, s'.log)
    requires ThreadOk(s, pc)
    requires a.Published? ==> !pc.Writing(a.ticket)
    requires a.Returned? ==> !pc.Reading(a.ticket)
    requires pc.EnqPublish? || pc.DeqData? ==> s'.data[Slot(pc.pos, s.capacity)] == s.data[Slot(pc.pos, s.capacity)]
    ensures ThreadOk(s', pc)
  {
  }

  lemma OthersKept<T(!new)>(s: State<T>, id: nat, a: Action<T>, s': State<T>, i: nat)
    requires Consistent(s) && Consistent(s') && ThreadsOk(s) && Exclusive(s)
    requires Allowed(s.log, a, s'.log) && Moved(s, id, a, s')
    requires i in s.threads && i != id
    requires s.threads[i].EnqPublish? || s.threads[i].DeqData? ==>
               s'.data[Slot(s.threads[i].pos, s'.capacity)] == s.data[Slot(s.threads[i].pos, s'.capacity)]
    ensures ThreadOk(s', s.threads[i])
  {
    assert ThreadOk(s, s.threads[i]);
    OtherKept(s, a, s', s.threads[i]);
  }

  lemma AllKept<T(!new)>(s: State<T>, id: nat, a: Action<T>, s': State<T>)
    requires Inv(s) && Consistent(s') && Allowed(s.log, a, s'.log) && Moved(s, id, a, s')
    requires ThreadOk(s', s'.threads[id]) && SlotsOk(s')
    requires forall i :: i in s.threads && i != id && (s.threads[i].EnqPublish? || s.threads[i].DeqData?) ==>
               s'.data[Slot(s.threads[i].pos, s'.capacity)] == s.data[Slot(s.threads[i].pos, s'.capacity)]
    ensures Inv(s')
  {
    forall i | i in s.threads && i != id ensures ThreadOk(s', s.threads[i]) {
      OthersKept(s, id, a, s', i);
    }
    OwnersOk(s);
    ExclusiveKept(s, id, a, s');
    AttendedKept(s, id, a, s');
  }

  // What the six effectful steps do to the buffer.

  lemma ClaimSlots<T(!new)>(s: State<T>, v: T, s': State<T>)
    requires Consistent(s) && SlotsOk(s) && s.log.CanClaim()
    requires s' == s.(threads := s'.threads, head := s.head + 1, log := s.log.Claim(v))
    ensures Consistent(s') && SlotsOk(s')
  {
  }

  lemma WriteSlots<T(!new)>(s: State<T>, v: T, pos: nat, s': State<T>)
    requires Consistent(s) && SlotsOk(s) && s.tail <= pos < s.head && pos !in s.log.published
    requires s' == s.(threads := s'.threads, data := s.data[Slot(pos, s.capacity) := v])
    ensures Consistent(s') && SlotsOk(s')
  {
    SlotsDistinctInLap(pos, s.tail, s.capacity);
  }

  lemma PublishSlots<T(!new)>(s: State<T>, pos: nat, s': State<T>)
    requires Consistent(s) && SlotsOk(s) && s.tail <= pos < s.head && pos !in s.log.published
    requires s.data[Slot(pos, s.capacity)] == s.log.items[pos]
    requires s' == s.(threads := s'.threads, sequence := s.sequence[Slot(pos, s.capacity) := pos + 1],
                      log := s.log.Publish(pos))
    ensures Consistent(s') && SlotsOk(s')
  {
    SlotsDistinctInLap(pos, s.tail, s.capacity);
  }

  lemma TakeSlots<T(!new)>(s: State<T>, s': State<T>)
    requires Consistent(s) && SlotsOk(s) && s.log.CanTake()
    requires s' == s.(threads := s'.threads, tail := s.tail + 1, log := s.log.Take())
    ensures Consistent(s') && SlotsOk(s')
  {
    SlotOneLapLater(s.tail, s.capacity);
    assert s.sequence[Slot(s.tail + s.capacity, s.capacity)] == s.tail + 1;
  }

  /** The sequences of the free slots; the others are untouched. */
  lemma ReleasedSequence<T(!new)>(s: State<T>, pos: nat, s': State<T>, t: nat)
    requires Consistent(s) && SlotsOk(s) && pos < s.tail && pos !in s.log.released
    requires s'.sequence == s.sequence[Slot(pos, s.capacity) := pos + s.capacity]
    requires s.tail <= t < s.tail + s.capacity
    ensures s'.sequence[Slot(t, s.capacity)] ==
            if t == pos + s.capacity then t else s.sequence[Slot(t, s.capacity)]
  {
    SlotOneLapLater(pos, s.capacity);
    SlotsDistinctInLap(pos + s.capacity, s.tail, s.capacity);
  }

  lemma ReleaseSlots<T(!new)>(s: State<T>, pos: nat, s': State<T>)
    requires Consistent(s) && SlotsOk(s) && pos < s.tail && pos !in s.log.released
    requires s' == s.(threads := s'.threads, sequence := s.sequence[Slot(pos, s.capacity) := pos + s.capacity],
                      log := s.log.Release(pos))
    ensures Consistent(s') && SlotsOk(s')
  {
    forall t: nat | s.tail <= t < s.tail + s.capacity
      ensures s'.sequence[Slot(t, s.capacity)] ==
              if t == pos + s.capacity then t else s.sequence[Slot(t, s.capacity)]
    {
      ReleasedSequence(s, pos, s', t);
    }
  }

  // The same six steps on the whole state.

  lemma ClaimKept<T(!new)>(s: State<T>, id: nat, v: T, s': State<T>)
    requires Inv(s) && id in s.threads && s.threads[id] == EnqSwap(v, s.head)
    requires s' == s.With(id, EnqData(v, s.head)).(head := s.head + 1, log := s.log.Claim(v))
    ensures Inv(s') && Allowed(s.log, Claimed(s.head, v), s'.log)
  {
    assert ThreadOk(s, s.threads[id]);
    ClaimSlots(s, v, s');
    AllKept(s, id, Claimed(s.head, v), s');
  }

  lemma WriteKept<T(!new)>(s: State<T>, id: nat, v: T, pos: nat, s': State<T>)
    requires Inv(s) && id in s.threads && s.threads[id] == EnqData(v, pos)
    requires s' == s.With(id, EnqPublish(pos)).(data := s.data[Slot(pos, s.capacity) := v])
    ensures Inv(s') && Allowed(s.log, Tau, s'.log)
  {
    assert ThreadOk(s, s.threads[id]);
    WriteSlots(s, v, pos, s');
    SlotsDistinctInLap(pos, s.tail, s.capacity);
    forall i | i in s.threads && i != id && (s.threads[i].EnqPublish? || s.threads[i].DeqData?)
      ensures Slot(s.threads[i].pos, s.capacity) != Slot(pos, s.capacity)
    {
      assert ThreadOk(s, s.threads[i]);
      if s.threads[i].DeqData? {
        SlotOneLapLater(s.threads[i].pos, s.capacity);
      }
    }
    AllKept(s, id, Tau, s');
  }

  lemma PublishKept<T(!new)>(s: State<T>, id: nat, pos: nat, s': State<T>)
    requires Inv(s) && id in s.threads && s.threads[id] == EnqPublish(pos)
    requires s' == s.With(id, Idle).(sequence := s.sequence[Slot(pos, s.capacity) := pos + 1],
                                     log := s.log.Publish(pos))
    ensures Inv(s') && Allowed(s.log, Published(pos), s'.log)
  {
    assert ThreadOk(s, s.threads[id]);
    PublishSlots(s, pos, s');
    AllKept(s, id, Published(pos), s');
  }

  lemma TakeKept<T(!new)>(s: State<T>, id: nat, s': State<T>)
    requires Inv(s) && id in s.threads && s.threads[id] == DeqSwap(s.tail)
    requires s' == s.With(id, DeqData(s.tail)).(tail := s.tail + 1, log := s.log.Take())
    ensures Inv(s') && Allowed(s.log, Took(s.tail), s'.log)
  {
    assert ThreadOk(s, s.threads[id]);
    TakeSlots(s, s');
    AllKept(s, id, Took(s.tail), s');
  }

  lemma ReleaseKept<T(!new)>(s: State<T>, id: nat, pos: nat, v: T, s': State<T>)
    requires Inv(s) && id in s.threads && s.threads[id] == DeqRelease(pos, v)
    requires s' == s.With(id, Idle).(sequence := s.sequence[Slot(pos, s.capacity) := pos + s.capacity],
                                     log := s.log.Release(pos))
    ensures Inv(s') && Allowed(s.log, Returned(pos, v), s'.log)
  {
    assert ThreadOk(s, s.threads[id]);
    ReleaseSlots(s, pos, s');
    AllKept(s, id, Returned(pos, v), s');
  }

  /** With the buffer as it was, everything that was right about it still is. */
  lemma BufferSame<T(!new)>(s: State<T>, s': State<T>, pc: Pc<T>)
    requires Consistent(s) && SlotsOk(s) && ThreadOk(s, pc) && s' == s.(threads := s'.threads)
    ensures Consistent(s') && SlotsOk(s') && ThreadOk(s', pc)
  {
  }

  lemma ReadKept<T(!new)>(s: State<T>, id: nat, pos: nat, s': State<T>)
    requires Inv(s) && id in s.threads && s.threads[id] == DeqData(pos)
    requires s' == s.With(id, DeqRelease(pos, s.data[Slot(pos, s.capacity)]))
    ensures Inv(s') && Allowed(s.log, Tau, s'.log)
  {
    assert ThreadOk(s, s.threads[id]);
    BufferSame(s, s', s'.threads[id]);
    AllKept(s, id, Tau, s');
  }

  /** A step that only moves a program counter outside every claim. */
  lemma MoveKept<T(!new)>(s: State<T>, id: nat, pc: Pc<T>)
    requires Inv(s) && id in s.threads && !s.threads[id].OwnsSlot()
    requires !pc.OwnsSlot() && ThreadOk(s, pc)
    ensures Inv(s.With(id, pc))
  {
    var s' := s.With(id, pc);
    BufferSame(s, s', pc);
    AllKept(s, id, Tau, s');
  }

  lemma EnqueueSwaps<T(!new)>(s: State<T>, id: nat, a: Action<T>, s': State<T>)
    requires Inv(s) && Step(s, id, a, s') && s.threads[id].EnqSwap?
    ensures Inv(s') && Allowed(s.log, a, s'.log)
  {
    assert ThreadOk(s, s.threads[id]);
    if a.Claimed? {
      ClaimKept(s, id, s.threads[id].value, s');
    } else {
      MoveKept(s, id, s'.threads[id]);
    }
  }

  lemma EnqueueLoads<T(!new)>(s: State<T>, id: nat, a: Action<T>, s': State<T>)
    requires Inv(s) && Step(s, id, a, s') && (s.threads[id].EnqHead? || s.threads[id].EnqSequence?)
    ensures Inv(s') && Allowed(s.log, a, s'.log)
  {
    assert ThreadOk(s, s.threads[id]);
    if s.threads[id].EnqSequence? {
      EnqueueLoad(s, s.threads[id].pos);
    }
    MoveKept(s, id, s'.threads[id]);
  }

  lemma EnqueueStep<T(!new)>(s: State<T>, id: nat, a: Action<T>, s': State<T>)
    requires Inv(s) && Step(s, id, a, s')
    requires !s.threads[id].Idle? && !s.threads[id].DequeueSide()
    ensures Inv(s') && Allowed(s.log, a, s'.log)
  {
    match s.threads[id]
    case EnqSwap(_, _) => EnqueueSwaps(s, id, a, s');
    case EnqData(v, pos) => WriteKept(s, id, v, pos, s');
    case EnqPublish(pos) => PublishKept(s, id, pos, s');
    case _ => EnqueueLoads(s, id, a, s');
  }

  lemma DequeueSwaps<T(!new)>(s: State<T>, id: nat, a: Action<T>, s': State<T>)
    requires Inv(s) && Step(s, id, a, s') && s.threads[id].DeqSwap?
    ensures Inv(s') && Allowed(s.log, a, s'.log)
  {
    assert ThreadOk(s, s.threads[id]);
    if a.Took? {
      TakeKept(s, id, s');
    } else {
      MoveKept(s, id, s'.threads[id]);
    }
  }

  lemma DequeueLoads<T(!new)>(s: State<T>, id: nat, a: Action<T>, s': State<T>)
    requires Inv(s) && Step(s, id, a, s') && (s.threads[id].DeqTail? || s.threads[id].DeqSequence?)
    ensures Inv(s') && Allowed(s.log, a, s'.log)
  {
    assert ThreadOk(s, s.threads[id]);
    if s.threads[id].DeqSequence? {
      DequeueLoad(s, s.threads[id].pos);
    }
    MoveKept(s, id, s'.threads[id]);
  }

  lemma DequeueStep<T(!new)>(s: State<T>, id: nat, a: Action<T>, s': State<T>)
    requires Inv(s) && Step(s, id, a, s') && s.threads[id].DequeueSide()
    ensures Inv(s') && Allowed(s.log, a, s'.log)
  {
    match s.threads[id]
    case DeqSwap(_) => DequeueSwaps(s, id, a, s');
    case DeqData(pos) => ReadKept(s, id, pos, s');
    case DeqRelease(pos, v) => ReleaseKept(s, id, pos, v, s');
    case _ => DequeueLoads(s, id, a, s');
  }

  /**
  Every step of every thread keeps the invariant, and does to the log only what the ticket log allows:
  the ring refines it.
  */
  lemma StepRefines<T(!new)>(s: State<T>, id: nat, a: Action<T>, s': State<T>)
    requires Inv(s) && Step(s, id, a, s')
    ensures Inv(s') && Allowed(s.log, a, s'.log) && s'.capacity == s.capacity
  {
    if s.threads[id].Idle? {
      MoveKept(s, id, s'.threads[id]);
    } else if s.threads[id].DequeueSide() {
      DequeueStep(s, id, a, s');
    } else {
      EnqueueStep(s, id, a, s');
    }
  }

  // What follows for every state the invariant describes. `RingRuns` has what follows for every run.

  /** No two threads are ever between claim and publish or release on the same slot. */
  lemma SlotsNeverShared<T(!new)>(s: State<T>, i: nat, j: nat)
    requires Inv(s) && i in s.threads && j in s.threads && i != j
    requires s.threads[i].OwnsSlot() && s.threads[j].OwnsSlot()
    ensures Slot(s.threads[i].pos, s.capacity) != Slot(s.threads[j].pos, s.capacity)
  {
    var a := CurrentOf(s, i);
    var b := CurrentOf(s, j);
    assert a != b;
    SlotsDistinctInLap(a, s.tail, s.capacity);
  }

  /** The ticket of the current lap that uses the slot a thread owns: its own, or the next for that slot. */
  lemma CurrentOf<T(!new)>(s: State<T>, i: nat) returns (t: nat)
    requires Inv(s) && i in s.threads && s.threads[i].OwnsSlot()
    ensures t == s.threads[i].pos + if s.threads[i].WriterSide() then 0 else s.capacity
    ensures s.tail <= t < s.tail + s.capacity && Slot(t, s.capacity) == Slot(s.threads[i].pos, s.capacity)
    ensures if s.threads[i].WriterSide() then t < s.head else s.head <= t
  {
    assert ThreadOk(s, s.threads[i]);
    SlotOneLapLater(s.threads[i].pos, s.capacity);
    t := s.threads[i].pos + if s.threads[i].WriterSide() then 0 else s.capacity;
  }

  /** With no operation between claim and publish or release, "full" means length = capacity and "empty" length = 0. */
  lemma QuietRefusals<T(!new)>(s: State<T>)
    requires Inv(s) && forall id :: id in s.threads ==> !s.threads[id].OwnsSlot()
    ensures s.log.Settled()
    ensures !s.log.CanClaim() <==> s.head - s.tail == s.capacity
    ensures !s.log.CanTake() <==> s.head == s.tail
  {
    SettledRefusals(s.log);
  }
}
