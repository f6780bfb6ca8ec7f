/**
Shutdown with no dispatch or flush in flight: the worker ends, everything queued is written in order and
the sinks are flushed at the end, except for at most one item.

docs/architecture.md (line 59) intends a full drain. The code loses the item, if any, that the worker
dequeues at line 57 or 59 without having passed the test at line 71 when stopping_ is set.
*/
module DispatcherShutdown {
  import opened TicketLog
  import opened Dispatcher
  import opened DispatcherInvariant

  /** No client is inside `dispatch` or `flush`. */
  ghost predicate Quiet(s: State) {
    forall c :: c in s.clients ==> s.clients[c] == Idle
  }

  /** The tickets that line 71 is going to throw away. */
  function Doomed(s: State): seq<nat> {
    match s.worker
    case HandRelease(t) => [t]
    case Branch(hand) => hand
    case Dequeue(_) => if s.log.CanTake() then [s.log.taken] else []
    case _ => []
  }

  /** How many fair steps the worker has left, at most. */
  function Weight(s: State): nat
    requires s.log.taken <= |s.log.items|
  {
    16 * (|s.log.items| - s.log.taken) + PcWeight(s) +
    if s.stopper.StopLoad? || s.stopper.StopRaise? then 1 else 0
  }

  function PcWeight(s: State): nat {
    match s.worker
    case Dequeue(again) => if again then 5 else 6
    case Top => 4
    case Recheck => 4
    case HandRelease(_) => 4
    case Branch(_) => 3
    case Fill => 6 + 8 * |s.batch|
    case FillRelease(_) => 15 + 8 * |s.batch|
    case Drain => if s.batch == [] then 2 else 6 + 8 * |s.batch|
    case DrainRelease(_) => 15 + 8 * |s.batch|
    case Process => 5 + 8 * |s.batch|
    case LoadCompleted(_) => 8 + 8 * |s.batch|
    case Raise(id, seen) => 8 * |s.batch| + if seen < id && seen != s.completed then 7 else 6
    case LastFlush => 1
    case Finished => 0
  }

  /** After stopping_ is set and with nobody calling: the worker and the stopping thread alone. */
  ghost predicate Closing(s: State) {
    && Inv(s) && Quiet(s) && s.stopping
    && (s.worker == LastFlush || s.worker == Finished ==> s.log.taken == |s.log.items|)
  }

  lemma EmptyMeansDrained(s: State)
    requires s.log.WellFormed() && Attended(s) && Quiet(s) && !s.log.CanTake()
    ensures s.log.taken == |s.log.items|
  {
    assert forall c, t: nat :: c in s.clients ==> !s.clients[c].Publishing(t);
  }

  lemma GatherCloses(s: State, a: Action<Item>, s': State)
    requires s.log.WellFormed() && s.stopping && WorkerOk(s) && s.worker.Gathering() && GatherStep(s, a, s')
    ensures s'.log.items == s.log.items && s'.log.taken <= |s'.log.items| && s'.log.published == s.log.published
    ensures Weight(s') < Weight(s)
    ensures s'.hist.lost + Doomed(s') == s.hist.lost + Doomed(s)
    ensures s'.worker == LastFlush ==> !s.log.CanTake() && s'.log == s.log
    ensures s'.worker != Finished
  {
  }

  lemma ProcessCloses(s: State, fair: bool, s': State)
    requires s.log.WellFormed() && WorkerOk(s) && !s.worker.Gathering() && ProcessStep(s, fair, s')
    ensures s'.log == s.log
    ensures if fair then Weight(s') < Weight(s) else Weight(s') <= Weight(s)
    ensures s'.hist.lost + Doomed(s') == s.hist.lost + Doomed(s)
    ensures s'.worker == LastFlush || s'.worker == Finished ==> s.worker == LastFlush
  {
  }

  lemma StopperCloses(s: State, s': State)
    requires s.log.WellFormed() && StopperStep(s, s') && s.stopping && (s.stopper == Alive) == !s.stopping
    ensures s'.log == s.log && s'.hist == s.hist && s'.worker == s.worker && s'.clients == s.clients
    ensures Weight(s') <= Weight(s) && Doomed(s') == Doomed(s)
  {
  }

  /** A step of the closing phase; `fair` marks the worker's fair steps. */
  ghost predicate ClosingStep(s: State, fair: bool, s': State) {
    if fair then WorkerMoves(s, true, s') else WorkerMoves(s, false, s') || StopperStep(s, s')
  }

  ghost predicate WorkerMoves(s: State, fair: bool, s': State) {
    exists a :: WorkerStep(s, a, fair, s')
  }

  lemma WorkerCloses(s: State, fair: bool, s': State)
    requires Closing(s) && WorkerMoves(s, fair, s')
    ensures Closing(s') && s'.log.items == s.log.items
    ensures if fair then Weight(s') < Weight(s) else Weight(s') <= Weight(s)
    ensures s'.hist.lost + Doomed(s') == s.hist.lost + Doomed(s)
  {
    var a :| WorkerStep(s, a, fair, s');
    WorkerKeeps(s, a, fair, s');
    if s.worker.Gathering() {
      GatherCloses(s, a, s');
      if s'.worker == LastFlush {
        EmptyMeansDrained(s);
      }
    } else {
      ProcessCloses(s, fair, s');
    }
  }

  lemma StepCloses(s: State, fair: bool, s': State)
    requires Closing(s) && ClosingStep(s, fair, s')
    ensures Closing(s') && s'.log.items == s.log.items
    ensures if fair then Weight(s') < Weight(s) else Weight(s') <= Weight(s)
    ensures s'.hist.lost + Doomed(s') == s.hist.lost + Doomed(s)
  {
    if WorkerMoves(s, fair, s') {
      WorkerCloses(s, fair, s');
    } else {
      StopperCloses(s, s');
      StopperFrame(s, s');
      StopperKeeps(s, s');
    }
  }

  /** The worker is never stuck before it has finished. */
  lemma WorkerCanMove(s: State) returns (a: Action<Item>, s': State)
    requires Inv(s) && s.worker != Finished
    ensures WorkerStep(s, a, true, s')
  {
    OwnedByMembers(s.hist.takers);
    assert forall t :: t in s.Held() ==> t in OwnedBy(s.hist.takers);
    a := Tau;
    match s.worker
    case Top => s' := s.(worker := if s.stopping then Branch([]) else Dequeue(false));
    case Dequeue(again) =>
      if s.log.CanTake() {
        a, s' := Took(s.log.taken), WorkerTakes(s, HandRelease(s.log.taken));
      } else {
        a, s' := SaidEmpty(s.log.taken), s.(worker := if again then Recheck else Dequeue(true));
      }
    case HandRelease(t) =>
      assert t in s.Held();
      a, s' := Returned(t, s.log.items[t]), s.(worker := Branch([t]), log := s.log.Release(t));
    case Recheck => s' := s.(worker := if s.stopping then Branch([]) else Top);
    case Branch(hand) => s' := if s.stopping then Discard(s, hand) else s.(worker := Fill, batch := hand);
    case Fill =>
      if |s.batch| >= s.options.batchSize {
        s' := s.(worker := Process);
      } else if s.log.CanTake() {
        a, s' := Took(s.log.taken), WorkerTakes(s, FillRelease(s.log.taken));
      } else {
        a, s' := SaidEmpty(s.log.taken), s.(worker := Process);
      }
    case FillRelease(t) =>
      assert t in s.Held();
      a, s' := Returned(t, s.log.items[t]), s.(worker := Fill, batch := s.batch + [t], log := s.log.Release(t));
    case Drain =>
      if s.log.CanTake() {
        a, s' := Took(s.log.taken), WorkerTakes(s, DrainRelease(s.log.taken));
      } else {
        a, s' := SaidEmpty(s.log.taken), s.(worker := if s.batch == [] then LastFlush else Process);
      }
    case DrainRelease(t) =>
      assert t in s.Held();
      a := Returned(t, s.log.items[t]);
      s' := s.(worker := if |s.batch| + 1 >= s.options.batchSize then Process else Drain,
               batch := s.batch + [t], log := s.log.Release(t));
    case Process =>
      if s.batch == [] {
        s' := s.(worker := Top);
      } else {
        assert s.batch[0] in s.Held();
        var item := s.log.items[s.batch[0]];
        s' := s.(batch := s.batch[1..], hist := s.hist.(done := s.hist.done + [s.batch[0]]),
                 worker := if item.Event? then Process else LoadCompleted(item.id));
      }
    case LoadCompleted(id) => s' := s.(worker := Raise(id, s.completed));
    case Raise(id, seen) =>
      s' := if seen >= id then s.(worker := Process)
            else if s.completed == seen then s.(worker := Process, completed := id)
            else s.(worker := Raise(id, s.completed));
    case LastFlush => s' := s.(worker := Finished, hist := s.hist.(finalFlush := true));
  }

  // The closing phase as a run.

  ghost predicate ClosingStepAt(states: seq<State>, fair: seq<bool>, k: nat) {
    k < |fair| && |states| == |fair| + 1 && ClosingStep(states[k], fair[k], states[k + 1])
  }

  /** `before` is the state in which shutdown sets stopping_, with nobody calling; `states` is what follows. */
  ghost predicate ClosingRun(before: State, states: seq<State>, fair: seq<bool>) {
    && Inv(before) && Quiet(before) && !before.stopping
    && |states| == |fair| + 1 && StopperStep(before, states[0])
    && forall k: nat :: k < |fair| ==> ClosingStepAt(states, fair, k)
  }

  function FairSteps(fair: seq<bool>): nat {
    if fair == [] then 0 else FairSteps(fair[..|fair| - 1]) + if fair[|fair| - 1] then 1 else 0
  }

  /** The state reached after `n` steps, compared with the state in which stopping_ was set. */
  ghost predicate ClosedTo(before: State, s: State, moves: nat) {
    && Closing(s) && s.log.items == before.log.items
    && before.log.taken <= |before.log.items| && moves + Weight(s) <= Weight(before) + 1
    && s.hist.lost + Doomed(s) == Doomed(before)
  }

  lemma ClosingStarts(before: State, s: State)
    requires Inv(before) && Quiet(before) && !before.stopping && StopperStep(before, s)
    ensures ClosedTo(before, s, 0)
  {
    StopperFrame(before, s);
    StopperKeeps(before, s);
  }

  ghost predicate ClosedToAt(before: State, states: seq<State>, fair: seq<bool>, k: nat) {
    k < |states| && k <= |fair| && ClosedTo(before, states[k], FairSteps(fair[..k]))
  }

  lemma ClosedToSteps(before: State, states: seq<State>, fair: seq<bool>)
    ensures forall k: nat :: ClosingStepAt(states, fair, k) && ClosedToAt(before, states, fair, k) ==>
              ClosedToAt(before, states, fair, k + 1)
  {
    forall k: nat | ClosingStepAt(states, fair, k) && ClosedToAt(before, states, fair, k)
      ensures ClosedToAt(before, states, fair, k + 1)
    {
      StepCloses(states[k], fair[k], states[k + 1]);
      assert fair[..k + 1][..k] == fair[..k];
    }
  }

  lemma {:induction false} ClosingRunInv(before: State, states: seq<State>, fair: seq<bool>, n: nat)
    requires ClosingRun(before, states, fair) && n <= |fair|
    ensures forall k: nat :: k <= n ==> ClosedToAt(before, states, fair, k)
  {
    if n == 0 {
      ClosingStarts(before, states[0]);
      assert ClosedTo(before, states[0], FairSteps(fair[..0]));
    } else {
      ClosingRunInv(before, states, fair, n - 1);
      assert ClosingStepAt(states, fair, n - 1);
      ClosedToSteps(before, states, fair);
    }
  }

  /**
  The worker terminates: in every run of the closing phase it makes at most Weight + 1 fair steps, and
  until it has finished it always has one to make.
  */
  lemma ShutdownTerminates(before: State, states: seq<State>, fair: seq<bool>)
    requires ClosingRun(before, states, fair)
    ensures FairSteps(fair) <= Weight(before) + 1
    ensures states[|fair|].worker != Finished ==> exists s' :: WorkerMoves(states[|fair|], true, s')
  {
    ClosingRunInv(before, states, fair, |fair|);
    assert ClosedToAt(before, states, fair, |fair|);
    assert fair[..|fair|] == fair;
    if states[|fair|].worker != Finished {
      var a, s' := WorkerCanMove(states[|fair|]);
      assert WorkerMoves(states[|fair|], true, s');
    }
  }

  /** How a shutdown ends, `before` being the state in which it set stopping_. */
  ghost predicate Drained(before: State, s: State) {
    && s.hist.finalFlush
    && s.log.items == before.log.items && |s.hist.takers| == |s.log.items|
    && s.hist.lost == Doomed(before) && |s.hist.lost| <= 1 && s.hist.lostAt <= |s.hist.done|
    && OwnedBy(s.hist.takers) == Handled(s.hist)
    && forall t: nat :: t < |s.log.items| ==>
                          s.hist.takers[t] == ByProducer || t in s.hist.done || t in s.hist.lost
  }

  /**
  When the worker has finished: the sinks were flushed last; the tickets the producers had not evicted are
  all processed, in ticket order, except the doomed one; and what was doomed when stopping_ was set is
  exactly what is lost.
  */
  lemma ShutdownDrains(before: State, states: seq<State>, fair: seq<bool>)
    requires ClosingRun(before, states, fair) && states[|fair|].worker == Finished
    ensures Drained(before, states[|fair|])
  {
    ClosingRunInv(before, states, fair, |fair|);
    assert ClosedToAt(before, states, fair, |fair|);
    FinishedDrained(before, states[|fair|], FairSteps(fair[..|fair|]));
  }

  lemma FinishedDrained(before: State, s: State, moves: nat)
    requires ClosedTo(before, s, moves) && s.worker == Finished
    ensures Drained(before, s)
  {
    OwnedByMembers(s.hist.takers);
    assert Handled(s.hist) + [] == Handled(s.hist);
    HandledIs(s.hist);
    forall t: nat | t < |s.log.items| && s.hist.takers[t] != ByProducer
      ensures t in s.hist.done || t in s.hist.lost
    {
      assert t in OwnedBy(s.hist.takers);
    }
  }

  lemma HandledIs(h: History)
    requires h.lostAt <= |h.done|
    ensures forall t :: t in Handled(h) ==> t in h.done || t in h.lost
  {
    assert h.done == h.done[..h.lostAt] + h.done[h.lostAt..];
  }

  /** Every ticket has been processed or evicted. */
  ghost predicate FullyDrained(s: State) {
    forall t: nat :: t < |s.log.items| ==> (t < |s.hist.takers| && s.hist.takers[t] == ByProducer) || t in s.hist.done
  }

  /** The full drain the documentation intends happens exactly when nothing is doomed as stopping_ is set. */
  lemma FullDrainIff(before: State, states: seq<State>, fair: seq<bool>)
    requires ClosingRun(before, states, fair) && states[|fair|].worker == Finished
    ensures FullyDrained(states[|fair|]) <==> Doomed(before) == []
  {
    ShutdownDrains(before, states, fair);
    var s := states[|fair|];
    if s.hist.lost != [] {
      LostIsNotDone(s.hist, s.hist.takers);
    }
  }

  lemma LostIsNotDone(h: History, takers: seq<Taker>)
    requires h.lostAt <= |h.done| && |h.lost| == 1 && OwnedBy(takers) == Handled(h)
    ensures h.lost[0] !in h.done && 0 <= h.lost[0] < |takers| && takers[h.lost[0]] == ByWorker
  {
    OwnedByMembers(takers);
    var handled := Handled(h);
    assert handled[h.lostAt] == h.lost[0] && h.lost[0] in handled;
    forall i | 0 <= i < |h.done| ensures h.done[i] != h.lost[0] {
      assert h.done[i] == handled[if i < h.lostAt then i else i + 1];
    }
  }

  // Every closing phase can be run to its end.

  lemma ClosingStarted(before: State) returns (states: seq<State>)
    requires Inv(before) && Quiet(before) && !before.stopping
    ensures ClosingRun(before, states, [])
  {
    states := [before.(stopping := true, stopper := StopLoad)];
  }

  lemma ClosingGrows(before: State, states: seq<State>, fair: seq<bool>, s: State)
    requires ClosingRun(before, states, fair) && WorkerMoves(states[|fair|], true, s)
    ensures ClosingRun(before, states + [s], fair + [true]) && FairSteps(fair + [true]) == FairSteps(fair) + 1
  {
    var longer, marks := states + [s], fair + [true];
    forall k: nat | k < |marks| ensures ClosingStepAt(longer, marks, k) {
      if k < |fair| {
        assert ClosingStepAt(states, fair, k);
      }
    }
    assert marks[..|marks| - 1] == fair;
  }

  /** However far a closing phase has come, it can be continued until the worker has finished. */
  lemma {:induction false} Finishes(before: State, states: seq<State>, fair: seq<bool>)
      returns (states': seq<State>, fair': seq<bool>)
    requires ClosingRun(before, states, fair)
    ensures ClosingRun(before, states', fair') && states <= states' && states'[|fair'|].worker == Finished
    decreases Weight(before) + 2 - FairSteps(fair)
  {
    ShutdownTerminates(before, states, fair);
    states', fair' := states, fair;
    if states[|fair|].worker != Finished {
      var s :| WorkerMoves(states[|fair|], true, s);
      ClosingGrows(before, states, fair, s);
      states', fair' := Finishes(before, states + [s], fair + [true]);
    }
  }

  // Some run does lose an item.

  function Start(capacity: nat): State {
    State(Options(DropNewest, 1, false), Empty(capacity), false, 0, 0, 0, map[0 := Idle], Top, [], Alive,
          History([], [], [], 0, false, 0, [], map[]))
  }

  lemma OneTrying(capacity: nat) returns (s: State)
    requires capacity >= 2
    ensures Reachable(s)
    ensures s == Start(capacity).(clients := map[0 := EvTry(7, true)])
  {
    var s0 := Start(capacity);
    assert Run([s0]) && [s0][|[s0]| - 1] == s0;
    var s1 := s0.With(0, EvCheck(7));
    ReachClient(s0, 0, Tau, s1);
    s := s1.With(0, EvTry(7, true));
    ReachClient(s1, 0, Tau, s);
    assert s.clients == map[0 := EvTry(7, true)];
  }

  /** Client 0 has dispatched event 7; enqueue_event returned true. */
  lemma OneAccepted(capacity: nat) returns (s: State)
    requires capacity >= 2
    ensures Reachable(s)
    ensures s == Start(capacity).(log := Empty(capacity).Claim(Event(7)).Publish(0))
  {
    var s2 := OneTrying(capacity);
    var s3 := s2.With(0, EvPublish(0)).(log := s2.log.Claim(Event(7)));
    ReachClient(s2, 0, Claimed(0, Event(7)), s3);
    s := s3.With(0, Idle).(log := s3.log.Publish(0));
    ReachClient(s3, 0, Published(0), s);
    assert s.clients == map[0 := Idle];
  }

  /**
  An accepted event, nobody calling, stopping_ not yet set, and the event doomed: the worker has it in
  `item`, between line 57 and line 71.
  */
  lemma DoomedExists(capacity: nat) returns (s: State)
    requires capacity >= 2
    ensures Reachable(s) && Quiet(s) && !s.stopping
    ensures s.log.items == [Event(7)] && 0 in s.log.published && Doomed(s) == [0]
  {
    var s0 := OneAccepted(capacity);
    var s1 := s0.(worker := Dequeue(false));
    assert WorkerStep(s0, Tau, true, s1);
    ReachStep(s0, s1);
    s := WorkerTakes(s1, HandRelease(0));
    assert WorkerStep(s1, Took(0), true, s);
    ReachStep(s1, s);
  }

  /** For every capacity there is a run in which the one accepted event is never offered to any sink. */
  lemma DoomedIsLost(capacity: nat) returns (before: State, states: seq<State>, fair: seq<bool>)
    requires capacity >= 2
    ensures Reachable(before) && before.log.items == [Event(7)] && 0 in before.log.published
    ensures ClosingRun(before, states, fair) && states[|fair|].worker == Finished
    ensures states[|fair|].hist.lost == [0] && 0 !in states[|fair|].hist.done && !FullyDrained(states[|fair|])
  {
    before := DoomedExists(capacity);
    ReachedInv(before);
    states := ClosingStarted(before);
    states, fair := Finishes(before, states, []);
    ShutdownDrains(before, states, fair);
    LostIsNotDone(states[|fair|].hist, states[|fair|].hist.takers);
  }
}
