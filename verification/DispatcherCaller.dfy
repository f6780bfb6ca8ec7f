/**
What a caller can rely on when it shuts the dispatcher down: a `flush` that has returned makes up for the item
that shutdown may throw away, because then that item cannot be an event.
*/
module DispatcherCaller {
  import opened Dispatcher
  import opened DispatcherInvariant
  import opened DispatcherFlush
  import opened DispatcherAccounts
  import opened DispatcherShutdown

  lemma ClosingStepExtends(s: State, fair: bool, s': State)
    requires Closing(s) && ClosingStep(s, fair, s')
    ensures Extends(s, s')
  {
    if WorkerMoves(s, fair, s') {
      var a :| WorkerStep(s, a, fair, s');
      assert TheWorkerSteps(s, s');
      WorkerStepKeeps(s, s');
    } else {
      StopperFrame(s, s');
    }
  }

  ghost predicate ExtendsTo(before: State, states: seq<State>, k: nat) {
    k < |states| && Extends(before, states[k])
  }

  lemma ClosingStepsExtend(before: State, states: seq<State>, fair: seq<bool>)
    ensures forall k: nat ::
      (ClosingStepAt(states, fair, k) && ClosedToAt(before, states, fair, k) && ExtendsTo(before, states, k)) ==>
        ExtendsTo(before, states, k + 1)
  {
    forall k: nat |
      ClosingStepAt(states, fair, k) && ClosedToAt(before, states, fair, k) && ExtendsTo(before, states, k)
      ensures ExtendsTo(before, states, k + 1)
    {
      ClosingStepExtends(states[k], fair[k], states[k + 1]);
      ExtendsTransitive(before, states[k], states[k + 1]);
    }
  }

  /** Nothing that had happened when stopping_ was set is undone while the worker closes down. */
  lemma {:induction false} ClosingExtends(before: State, states: seq<State>, fair: seq<bool>, n: nat)
    requires ClosingRun(before, states, fair) && n <= |fair|
    ensures ExtendsTo(before, states, n)
  {
    if n == 0 {
      StopperFrame(before, states[0]);
    } else {
      ClosingExtends(before, states, fair, n - 1);
      ClosingRunInv(before, states, fair, n - 1);
      assert ClosingStepAt(states, fair, n - 1) && ClosedToAt(before, states, fair, n - 1);
      ClosingStepsExtend(before, states, fair);
    }
  }

  /** No event is lost: each was offered to every sink, or evicted by a producer. */
  ghost predicate NoEventLost(s: State) {
    forall t: nat :: IsEvent(s.log.items, t) ==>
      t in s.hist.done || (t < |s.hist.takers| && s.hist.takers[t] == ByProducer)
  }

  /**
  The full drain, on a condition that a caller can see to: every event dispatched was accepted before flush `f`
  did its fetch_add (step j), and flush `f` has been let through by the time shutdown sets stopping_ (state k).
  Under block and drop_newest every event has then been offered to every sink.
  */
  lemma FlushedThenShutDown(run: seq<State>, j: nat, k: nat, f: nat, states: seq<State>, fair: seq<bool>)
    requires Run(run) && j < k < |run|
    requires run[j].nextFlush + 1 == run[j + 1].nextFlush == f && run[k].completed >= f
    requires forall t: nat :: IsEvent(run[k].log.items, t) ==> t in run[j].log.published
    requires ClosingRun(run[k], states, fair) && states[|fair|].worker == Finished
    ensures var s := states[|fair|];
            && NoEventLost(s) && s.hist.finalFlush
            && (run[k].options.policy != DropOldest ==>
                  forall t: nat :: IsEvent(s.log.items, t) ==> t in s.hist.done)
  {
    var before, s := run[k], states[|fair|];
    ShutdownDrains(before, states, fair);
    ClosingExtends(before, states, fair, |fair|);
    assert Extends(before, s);
    forall t: nat | IsEvent(s.log.items, t)
      ensures t in s.hist.done || (t < |s.hist.takers| && s.hist.takers[t] == ByProducer)
    {
      FlushDelivers(run, j, k, f, t);
      assert Delivered(before, t);
    }
    ClosingRunInv(before, states, fair, |fair|);
    assert ClosedToAt(before, states, fair, |fair|);
  }
}
