/**
Whole runs of the ring: every one is a history of the ticket log, and delivers each value once, from the thread that
enqueued it to the thread that dequeued it. Every call answers. One with a single slot goes wrong.
*/
module RingRuns {
  import opened TicketLog
  import opened RingMachine

  /** A run: the threads' steps in the order they took effect. */
  ghost predicate Run<T(!new)>(states: seq<State<T>>, ids: seq<nat>, actions: seq<Action<T>>) {
    && |states| == |ids| + 1 == |actions| + 1
    && Init(states[0])
    && forall k :: 0 <= k < |ids| ==> Shaped(states[k]) && Step(states[k], ids[k], actions[k], states[k + 1])
  }

  function Logs<T>(states: seq<State<T>>): seq<Log<T>> {
    seq(|states|, k requires 0 <= k < |states| => states[k].log)
  }

  lemma {:induction false} RunInv<T(!new)>(states: seq<State<T>>, ids: seq<nat>, actions: seq<Action<T>>, n: nat)
    requires Run(states, ids, actions) && states[0].capacity >= 2 && n < |states|
    ensures Inv(states[n]) && states[n].capacity == states[0].capacity
    ensures n > 0 ==> Allowed(states[n - 1].log, actions[n - 1], states[n].log)
  {
    if n == 0 {
      InitInv(states[0]);
    } else {
      RunInv(states, ids, actions, n - 1);
      StepRefines(states[n - 1], ids[n - 1], actions[n - 1], states[n]);
    }
  }

  /** Every run of the ring is a history of the ticket log. */
  lemma RunIsHistory<T(!new)>(states: seq<State<T>>, ids: seq<nat>, actions: seq<Action<T>>)
    requires Run(states, ids, actions) && states[0].capacity >= 2
    ensures History(Logs(states), actions)
    ensures forall k :: 0 <= k < |states| ==> Inv(states[k])
  {
    forall k: nat | k < |states| ensures Inv(states[k]) {
      RunInv(states, ids, actions, k);
    }
    forall k: nat | k < |actions| ensures Allowed(Logs(states)[k], actions[k], Logs(states)[k + 1]) {
      RunInv(states, ids, actions, k + 1);
    }
  }

  // Who does what: between claiming a ticket and publishing or releasing it a thread does nothing else.

  /** A thread that is writing under a ticket has claimed that ticket itself. */
  lemma {:induction false} WriterClaimed<T(!new)>(states: seq<State<T>>, ids: seq<nat>, actions: seq<Action<T>>,
                                                  n: nat, id: nat, t: nat) returns (c: nat)
    requires Run(states, ids, actions) && n < |states|
    requires id in states[n].threads && states[n].threads[id].Writing(t)
    ensures c < n && ids[c] == id && actions[c].Claimed? && actions[c].ticket == t
  {
    assert n > 0;
    assert Step(states[n - 1], ids[n - 1], actions[n - 1], states[n]);
    if ids[n - 1] == id && actions[n - 1].Claimed? {
      c := n - 1;
    } else {
      c := WriterClaimed(states, ids, actions, n - 1, id, t);
    }
  }

  /** A thread that is reading under a ticket has taken that ticket itself. */
  lemma {:induction false} ReaderTook<T(!new)>(states: seq<State<T>>, ids: seq<nat>, actions: seq<Action<T>>,
                                               n: nat, id: nat, t: nat) returns (k: nat)
    requires Run(states, ids, actions) && n < |states|
    requires id in states[n].threads && states[n].threads[id].Reading(t)
    ensures k < n && ids[k] == id && actions[k] == Took(t)
  {
    assert n > 0;
    assert Step(states[n - 1], ids[n - 1], actions[n - 1], states[n]);
    if ids[n - 1] == id && actions[n - 1].Took? {
      k := n - 1;
    } else {
      k := ReaderTook(states, ids, actions, n - 1, id, t);
    }
  }

  /** One enqueue call and one dequeue call carry ticket t from end to end, each within one thread. */
  ghost predicate Carried<T>(ids: seq<nat>, actions: seq<Action<T>>, c: nat, p: nat, k: nat, n: nat)
    requires |ids| == |actions|
  {
    && c < p < k < n < |actions| && actions[n].Returned?
    && actions[c] == Claimed(actions[n].ticket, actions[n].value)
    && actions[p] == Published(actions[n].ticket) && ids[p] == ids[c]
    && actions[k] == Took(actions[n].ticket) && ids[k] == ids[n]
  }

  /** The enqueue and the dequeue behind a return. */
  lemma RunCarries<T(!new)>(states: seq<State<T>>, ids: seq<nat>, actions: seq<Action<T>>, n: nat)
    requires Run(states, ids, actions) && History(Logs(states), actions)
    requires n < |actions| && actions[n].Returned?
    ensures exists c, p, k :: Carried(ids, actions, c, p, k, n)
  {
    var t := actions[n].ticket;
    assert Step(states[n], ids[n], actions[n], states[n + 1]);
    var k := ReaderTook(states, ids, actions, n, ids[n], t);
    assert Allowed(Logs(states)[k], actions[k], Logs(states)[k + 1]);
    var p := PublishStep(Logs(states), actions, k, t);
    assert Step(states[p], ids[p], actions[p], states[p + 1]);
    var c := WriterClaimed(states, ids, actions, p, ids[p], t);
    ValueIsKept(Logs(states), actions, c, n);
    assert Carried(ids, actions, c, p, k, n);
  }

  /**
  In any run, the dequeue that gets ticket t hands out the value stored by the enqueue that claimed t; that enqueue
  is the only one with this ticket, and published it itself; that dequeue is the only one, and took it itself.
  */
  lemma RunDelivers<T(!new)>(states: seq<State<T>>, ids: seq<nat>, actions: seq<Action<T>>, n: nat)
    requires Run(states, ids, actions) && states[0].capacity >= 2
    requires n < |actions| && actions[n].Returned?
    ensures exists c, p, k :: Carried(ids, actions, c, p, k, n)
    ensures forall m, k :: 0 <= m < k < |actions| && SameKind(actions[m], actions[k]) ==>
              actions[m].ticket != actions[k].ticket
  {
    RunIsHistory(states, ids, actions);
    TicketsDiffer(Logs(states), actions);
    RunCarries(states, ids, actions, n);
  }

  // Every call answers, once, about the value it was called with.

  /** What thread `id` did to the queue in steps b to n - 1. */
  ghost function Deeds<T>(ids: seq<nat>, actions: seq<Action<T>>, id: nat, b: nat, n: nat): seq<Action<T>>
    requires |ids| == |actions| && n <= |ids|
  {
    if n <= b then []
    else Deeds(ids, actions, id, b, n - 1) + if ids[n - 1] == id && actions[n - 1] != Tau then [actions[n - 1]] else []
  }

  ghost predicate At<T>(s: State<T>, id: nat, pc: Pc<T>) {
    id in s.threads && s.threads[id] == pc
  }

  /** Thread `id` began a call at step b, with `first` as its first position, and is still in it in state n. */
  ghost predicate Calling<T(!new)>(states: seq<State<T>>, ids: seq<nat>, id: nat, b: nat, first: Pc<T>, n: nat)
    requires |states| == |ids| + 1
  {
    && b < n < |states| && ids[b] == id
    && At(states[b], id, Idle) && At(states[b + 1], id, first)
    && forall k :: b < k <= n ==> InCall(states[k], id)
  }

  ghost predicate InCall<T>(s: State<T>, id: nat) {
    id in s.threads && s.threads[id] != Idle
  }

  /** What a call that began at `first` has done when it is at `pc`. */
  ghost predicate DoneSoFar<T>(first: Pc<T>, deeds: seq<Action<T>>, pc: Pc<T>) {
    match pc
    case Idle => false
    case EnqHead(v) => first == EnqHead(v) && deeds == []
    case EnqSequence(v, _) => first == EnqHead(v) && deeds == []
    case EnqSwap(v, _) => first == EnqHead(v) && deeds == []
    case EnqData(v, t) => first == EnqHead(v) && deeds == [Claimed(t, v)]
    case EnqPublish(t) => first.EnqHead? && deeds == [Claimed(t, first.value)]
    case DeqTail => first == DeqTail && deeds == []
    case DeqSequence(_) => first == DeqTail && deeds == []
    case DeqSwap(_) => first == DeqTail && deeds == []
    case DeqData(t) => first == DeqTail && deeds == [Took(t)]
    case DeqRelease(t, _) => first == DeqTail && deeds == [Took(t)]
  }

  /** What a call that began at `first` has done when it returns. */
  ghost predicate IsAnswer<T>(first: Pc<T>, deeds: seq<Action<T>>) {
    if first.EnqHead? then
      || (|deeds| == 1 && deeds[0].SaidFull?)
      || (|deeds| == 2 && deeds[0].Claimed? && deeds[0].value == first.value && deeds[1] == Published(deeds[0].ticket))
    else
      && first == DeqTail
      && (|| (|deeds| == 1 && deeds[0].SaidEmpty?)
          || (|deeds| == 2 && deeds[0].Took? && deeds[1].Returned? && deeds[1].ticket == deeds[0].ticket))
  }

  lemma StepDoes<T(!new)>(s: State<T>, id: nat, a: Action<T>, s': State<T>, first: Pc<T>, deeds: seq<Action<T>>)
    requires Shaped(s) && Step(s, id, a, s') && DoneSoFar(first, deeds, s.threads[id])
    ensures id in s'.threads
    ensures var more := if a == Tau then deeds else deeds + [a];
            if s'.threads[id] == Idle then IsAnswer(first, more) else DoneSoFar(first, more, s'.threads[id])
  {
  }

  /** A call starts with one of two first positions, and nothing done. */
  lemma StepStarts<T(!new)>(s: State<T>, id: nat, a: Action<T>, s': State<T>)
    requires Shaped(s) && Step(s, id, a, s') && s.threads[id] == Idle
    ensures a == Tau && id in s'.threads && DoneSoFar(s'.threads[id], [], s'.threads[id])
  {
  }

  lemma OthersStay<T(!new)>(s: State<T>, mover: nat, a: Action<T>, s': State<T>, id: nat)
    requires Shaped(s) && Step(s, mover, a, s') && id in s'.threads && id != mover
    ensures id in s.threads && s'.threads[id] == s.threads[id]
  {
  }

  lemma DomainStays<T(!new)>(s: State<T>, mover: nat, a: Action<T>, s': State<T>, id: nat)
    requires Shaped(s) && Step(s, mover, a, s') && id in s'.threads
    ensures id in s.threads
  {
  }

  lemma CallBegins<T(!new)>(states: seq<State<T>>, ids: seq<nat>, actions: seq<Action<T>>, n: nat)
    requires Run(states, ids, actions) && n < |ids| && At(states[n], ids[n], Idle)
    ensures ids[n] in states[n + 1].threads
    ensures var first := states[n + 1].threads[ids[n]];
            && Calling(states, ids, ids[n], n, first, n + 1)
            && DoneSoFar(first, Deeds(ids, actions, ids[n], n, n + 1), first)
  {
    StepStarts(states[n], ids[n], actions[n], states[n + 1]);
    assert Deeds(ids, actions, ids[n], n, n + 1) == [];
  }

  lemma CallLasts<T(!new)>(states: seq<State<T>>, ids: seq<nat>, n: nat, id: nat, b: nat, first: Pc<T>)
    requires |states| == |ids| + 1 && n < |ids| && InCall(states[n + 1], id)
    requires Calling(states, ids, id, b, first, n)
    ensures Calling(states, ids, id, b, first, n + 1)
  {
  }

  /** One more step, by anybody, that does not end the call. */
  lemma CallGoesOn<T(!new)>(s: State<T>, mover: nat, a: Action<T>, s': State<T>, id: nat,
                            first: Pc<T>, deeds: seq<Action<T>>)
    requires Shaped(s) && Step(s, mover, a, s') && id in s.threads && InCall(s', id)
    requires DoneSoFar(first, deeds, s.threads[id])
    ensures DoneSoFar(first, deeds + if mover == id && a != Tau then [a] else [], s'.threads[id])
  {
    assert deeds + [] == deeds;
    if mover == id {
      StepDoes(s, id, a, s', first, deeds);
    } else {
      OthersStay(s, mover, a, s', id);
    }
  }

  /** Any thread inside a call has begun it, and done since what its position says. */
  lemma {:induction false} CallSoFar<T(!new)>(states: seq<State<T>>, ids: seq<nat>, actions: seq<Action<T>>,
                                              n: nat, id: nat) returns (b: nat, first: Pc<T>)
    requires Run(states, ids, actions) && n < |states| && InCall(states[n], id)
    ensures Calling(states, ids, id, b, first, n)
    ensures DoneSoFar(first, Deeds(ids, actions, id, b, n), states[n].threads[id])
  {
    assert n > 0;
    DomainStays(states[n - 1], ids[n - 1], actions[n - 1], states[n], id);
    if ids[n - 1] == id && states[n - 1].threads[id] == Idle {
      CallBegins(states, ids, actions, n - 1);
      b, first := n - 1, states[n].threads[id];
    } else {
      if ids[n - 1] != id {
        OthersStay(states[n - 1], ids[n - 1], actions[n - 1], states[n], id);
      }
      b, first := CallSoFar(states, ids, actions, n - 1, id);
      CallLasts(states, ids, n - 1, id, b, first);
      CallGoesOn(states[n - 1], ids[n - 1], actions[n - 1], states[n], id, first, Deeds(ids, actions, id, b, n - 1));
    }
  }

  /**
  A call that returns, at step n, has answered, and once: an enqueue said full, or claimed a ticket with the value it
  was called with and published that ticket; a dequeue said empty, or took a ticket and returned that ticket.
  */
  lemma CallAnswers<T(!new)>(states: seq<State<T>>, ids: seq<nat>, actions: seq<Action<T>>, n: nat)
    requires Run(states, ids, actions) && n < |ids| && At(states[n + 1], ids[n], Idle)
    ensures exists b, first :: Calling(states, ids, ids[n], b, first, n) &&
                               IsAnswer(first, Deeds(ids, actions, ids[n], b, n + 1))
  {
    var id := ids[n];
    DomainStays(states[n], id, actions[n], states[n + 1], id);
    if states[n].threads[id] == Idle {
      StepStarts(states[n], id, actions[n], states[n + 1]);
    }
    var b, first := CallSoFar(states, ids, actions, n, id);
    StepDoes(states[n], id, actions[n], states[n + 1], first, Deeds(ids, actions, id, b, n));

  }

  /** Tickets are taken in order. */
  lemma RunTakesInOrder<T(!new)>(states: seq<State<T>>, ids: seq<nat>, actions: seq<Action<T>>, m: nat, k: nat)
    requires Run(states, ids, actions) && states[0].capacity >= 2
    requires m < k < |actions| && actions[m].Took? && actions[k].Took?
    ensures actions[m].ticket < actions[k].ticket
  {
    RunIsHistory(states, ids, actions);
    TakenInOrder(Logs(states), actions, m, k);
  }

  // Capacity 1 passes the constructor's check, but not the protocol.

  ghost predicate Reachable<T(!new)>(s: State<T>) {
    exists states: seq<State<T>>, ids, actions :: Run(states, ids, actions) && states[|states| - 1] == s
  }

  lemma ReachInit<T(!new)>(s: State<T>)
    requires Init(s)
    ensures Reachable(s)
  {
    assert Run([s], [], []);
  }

  lemma RunOn<T(!new)>(states: seq<State<T>>, ids: seq<nat>, actions: seq<Action<T>>,
                       id: nat, a: Action<T>, s': State<T>)
    requires Run(states, ids, actions)
    requires Shaped(states[|ids|]) && Step(states[|ids|], id, a, s')
    ensures Run(states + [s'], ids + [id], actions + [a])
  {
    var states', ids', actions' := states + [s'], ids + [id], actions + [a];
    forall k | 0 <= k < |ids'| ensures Shaped(states'[k]) && Step(states'[k], ids'[k], actions'[k], states'[k + 1]) {
      assert k < |ids| ==> states'[k + 1] == states[k + 1];
    }
  }

  lemma ReachStep<T(!new)>(s: State<T>, id: nat, a: Action<T>, s': State<T>)
    requires Reachable(s) && Shaped(s) && Step(s, id, a, s')
    ensures Reachable(s')
  {
    var states: seq<State<T>>, ids, actions :| Run(states, ids, actions) && states[|states| - 1] == s;
    RunOn(states, ids, actions, id, a, s');
    var states' := states + [s'];
    assert states'[|states'| - 1] == s';
  }

  ghost predicate NeverOverfills(capacity: nat) {
    forall s: State<nat> :: Reachable(s) && s.capacity == capacity ==> s.tail <= s.head <= s.tail + capacity
  }

  /** A single slot, and a producer that has loaded the head. */
  lemma OneSlotLoaded() returns (s: State<nat>)
    ensures Reachable(s)
    ensures s == State(1, 0, 0, [0], [9], map[0 := EnqSequence(7, 0)], Empty<nat>(1))
  {
    var s0 := State(1, 0, 0, [0], [9], map[0 := Idle], Empty<nat>(1));
    ReachInit(s0);
    var s1 := s0.With(0, EnqHead(7));
    ReachStep(s0, 0, Tau, s1);
    s := s1.With(0, EnqSequence(7, 0));
    ReachStep(s1, 0, Tau, s);
    assert s.threads == map[0 := EnqSequence(7, 0)];
  }

  /** The producer has seen the slot free. */
  lemma OneSlotSeen() returns (s: State<nat>)
    ensures Reachable(s)
    ensures s == State(1, 0, 0, [0], [9], map[0 := EnqSwap(7, 0)], Empty<nat>(1))
  {
    var s2 := OneSlotLoaded();
    s := s2.With(0, EnqSwap(7, 0));
    ReachStep(s2, 0, Tau, s);
    assert s.threads == map[0 := EnqSwap(7, 0)];
  }

  /** A single slot whose first ticket has been claimed. */
  lemma OneSlotClaimed() returns (s: State<nat>)
    ensures Reachable(s)
    ensures s == State(1, 1, 0, [0], [9], map[0 := EnqData(7, 0)], Empty<nat>(1).Claim(7))
  {
    var s3 := OneSlotSeen();
    s := s3.With(0, EnqData(7, 0)).(head := 1, log := s3.log.Claim(7));
    ReachStep(s3, 0, Claimed(0, 7), s);
    assert s.threads == map[0 := EnqData(7, 0)];
  }

  /** A single slot after one complete enqueue. */
  lemma OneSlotFills() returns (s: State<nat>)
    ensures Reachable(s) && s.capacity == 1 && s.head == 1 && s.tail == 0
    ensures s.sequence == [1] && |s.data| == 1 && s.threads == map[0 := Idle]
  {
    var s4 := OneSlotClaimed();
    var s5 := s4.With(0, EnqPublish(0)).(data := s4.data[0 := 7]);
    ReachStep(s4, 0, Tau, s5);
    s := s5.With(0, Idle).(sequence := s5.sequence[0 := 1], log := s5.log.Publish(0));
    ReachStep(s5, 0, Published(0), s);
  }

  /** A second enqueue into the full single slot claims ticket 1: sequence 1 looks free to it. */
  lemma OneSlotOverfills()
    ensures !NeverOverfills(1)
  {
    var s0 := OneSlotFills();
    var s1 := s0.With(0, EnqHead(8));
    ReachStep(s0, 0, Tau, s1);
    var s2 := s1.With(0, EnqSequence(8, 1));
    ReachStep(s1, 0, Tau, s2);
    var s3 := s2.With(0, EnqSwap(8, 1));
    ReachStep(s2, 0, Tau, s3);
    var s4 := s3.With(0, EnqData(8, 1)).(head := 2, log := s3.log.Claim(8));
    ReachStep(s3, 0, Claimed(1, 8), s4);
    assert Reachable(s4) && s4.capacity == 1 && s4.head > s4.tail + 1;
  }

  /** The ring keeps to its capacity in every run exactly when it has at least two slots. */
  lemma NeverOverfillsIff(capacity: nat)
    requires capacity > 0
    ensures NeverOverfills(capacity) <==> capacity >= 2
  {
    if capacity == 1 {
      OneSlotOverfills();
    } else {
      forall s: State<nat> | Reachable(s) && s.capacity == capacity ensures Inv(s) {
        var states: seq<State<nat>>, ids, actions :| Run(states, ids, actions) && states[|states| - 1] == s;
        RunCapacity(states, ids, actions, |states| - 1);
        RunInv(states, ids, actions, |states| - 1);
      }
    }
  }

  lemma {:induction false} RunCapacity<T(!new)>(states: seq<State<T>>, ids: seq<nat>, actions: seq<Action<T>>, n: nat)
    requires Run(states, ids, actions) && n < |states|
    ensures states[n].capacity == states[0].capacity
  {
    if n > 0 {
      RunCapacity(states, ids, actions, n - 1);
      assert Step(states[n - 1], ids[n - 1], actions[n - 1], states[n]);
    }
  }
}
