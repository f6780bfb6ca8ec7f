/**
The worker's calls on the sinks: one misbehaving sink does not keep an event from the others, and what every sink
receives over a run is what the dispatcher's history says was processed.
*/
module SinkFanOut {
  import opened TicketLog
  import opened Dispatcher
  import opened DispatcherInvariant
  import opened DispatcherAccounts
  import opened DispatcherFlush
  import opened DispatcherReturn

  datatype Call = Write(event: nat) | Flush

  function Count(outcomes: seq<bool>): nat {
    if outcomes == [] then 0 else Count(outcomes[..|outcomes| - 1]) + if outcomes[|outcomes| - 1] then 1 else 0
  }

  class Sinks {
    /** The calls each sink has received. */
    const received: array<seq<Call>>
    var failures: nat

    constructor (n: nat)
      ensures fresh(received) && received.Length == n && failures == 0
      ensures forall k :: 0 <= k < n ==> received[k] == []
    {
      received := new seq<Call>[n](_ => []);
      failures := 0;
    }

    /** safe_write and safe_flush_sinks: `throws[k]` says whether sink k throws this time. */
    method CallAll(call: Call, throws: seq<bool>)
      requires |throws| == received.Length
      modifies this`failures, received
      ensures forall k :: 0 <= k < received.Length ==> received[k] == old(received[k]) + [call]
      ensures failures == old(failures) + Count(throws)
    {
      for k := 0 to received.Length
        invariant forall i :: 0 <= i < k ==> received[i] == old(received[i]) + [call]
        invariant forall i :: k <= i < received.Length ==> received[i] == old(received[i])
        invariant failures == old(failures) + Count(throws[..k])
      {
        received[k] := received[k] + [call];
        assert throws[..k + 1][..k] == throws[..k];
        if throws[k] {
          failures := failures + 1;
        }
      }
      assert throws[..received.Length] == throws;
    }

    /** Lines 91 to 96 for one item of the batch. */
    method Offer(items: seq<Item>, t: nat, throws: seq<bool>)
      requires t < |items| && |throws| == received.Length
      modifies this`failures, received
      ensures forall k :: 0 <= k < received.Length ==> received[k] == old(received[k]) + [CallFor(items, t)]
      ensures failures == old(failures) + Count(throws)
    {
      if items[t].Event? {
        CallAll(Write(t), throws);
      } else {
        CallAll(Flush, throws);
      }
    }

    /** The whole loop over a batch; `throws[i]` is about the i-th item. */
    method OfferBatch(items: seq<Item>, batch: seq<nat>, throws: seq<seq<bool>>)
      requires forall t :: t in batch ==> t < |items|
      requires |throws| == |batch| && forall i :: 0 <= i < |throws| ==> |throws[i]| == received.Length
      modifies this`failures, received
      ensures forall k :: 0 <= k < received.Length ==> received[k] == old(received[k]) + CallsFor(items, batch)
    {
      for i := 0 to |batch|
        invariant forall k :: 0 <= k < received.Length ==> received[k] == old(received[k]) + CallsFor(items, batch[..i])
      {
        assert batch[i] in batch && batch[..i + 1][..i] == batch[..i];
        Offer(items, batch[i], throws[i]);
      }
      assert batch[..|batch|] == batch;
    }

    /** One step of the worker at line 91, with the calls it makes. */
    method ProcessNext(ghost s: State, ghost s': State, items: seq<Item>, t: nat, throws: seq<bool>)
      requires s.worker == Process && s.batch != [] && ProcessStep(s, true, s')
      requires items == s.log.items && t == s.batch[0] && |throws| == received.Length
      modifies this`failures, received
      ensures forall k :: 0 <= k < received.Length ==> received[k] == old(received[k]) + CallsMade(s, s')
      ensures failures == old(failures) + Count(throws)
    {
      Offer(items, t, throws);
    }

    /** Line 106. */
    method FlushLast(ghost s: State, ghost s': State, throws: seq<bool>)
      requires s.worker == LastFlush && !s.hist.finalFlush && ProcessStep(s, true, s')
      requires |throws| == received.Length
      modifies this`failures, received
      ensures forall k :: 0 <= k < received.Length ==> received[k] == old(received[k]) + CallsMade(s, s')
      ensures failures == old(failures) + Count(throws)
    {
      CallAll(Flush, throws);
    }
  }

  /** The calls that each sink gets in a step: one for an item that has been processed, one flush at the end. */
  function CallsMade(s: State, s': State): seq<Call> {
    (if |s.hist.done| < |s'.hist.done| then [CallFor(s.log.items, s'.hist.done[|s.hist.done|])] else [])
    + if s'.hist.finalFlush && !s.hist.finalFlush then [Flush] else []
  }

  function CallFor(items: seq<Item>, t: nat): Call {
    if IsEvent(items, t) then Write(t) else Flush
  }

  /** The calls for these tickets, in order. */
  function CallsFor(items: seq<Item>, tickets: seq<nat>): seq<Call> {
    if tickets == [] then []
    else
      var n := |tickets| - 1;
      CallsFor(items, tickets[..n]) + [CallFor(items, tickets[n])]
  }

  /** The events among the calls. */
  function WritesOf(calls: seq<Call>): seq<nat> {
    if calls == [] then []
    else
      var n := |calls| - 1;
      WritesOf(calls[..n]) + if calls[n].Write? then [calls[n].event] else []
  }

  lemma {:induction false} WritesAreEvents(items: seq<Item>, tickets: seq<nat>)
    ensures WritesOf(CallsFor(items, tickets)) == OnlyEvents(items, tickets)
  {
    if tickets != [] {
      var n := |tickets| - 1;
      WritesAreEvents(items, tickets[..n]);
      var calls := CallsFor(items, tickets);
      assert calls[..|calls| - 1] == CallsFor(items, tickets[..n]);
    }
  }

  /** Claiming more tickets does not change the calls for the old ones. */
  lemma {:induction false} CallsStay(items: seq<Item>, more: seq<Item>, tickets: seq<nat>)
    requires items <= more && forall i :: 0 <= i < |tickets| ==> tickets[i] < |items|
    ensures CallsFor(more, tickets) == CallsFor(items, tickets)
  {
    if tickets != [] {
      var n := |tickets| - 1;
      CallsStay(items, more, tickets[..n]);
    }
  }

  /** What every sink should have received by now. */
  function Due(s: State): seq<Call> {
    CallsFor(s.log.items, s.hist.done) + if s.hist.finalFlush then [Flush] else []
  }

  /** How a step changes what was processed. */
  lemma StepProcesses(s: State, s': State)
    requires Inv(s) && Step(s, s') && (s.hist.finalFlush ==> s.worker == Finished)
    ensures s'.hist.finalFlush ==> s'.worker == Finished
    ensures s'.hist.done != s.hist.done ==>
              && s.worker == Process && s.batch != [] && s'.hist.done == s.hist.done + [s.batch[0]]
              && !s.hist.finalFlush && !s'.hist.finalFlush
    ensures s.hist.finalFlush ==> s'.hist.finalFlush
  {
    if AClientSteps(s, s') {
      var c, a :| ClientStep(s, c, a, s');
      assert ClientOk(s, s.clients[c]);
      FrameOfClient(s, c, a, s');
    } else if TheWorkerSteps(s, s') {
      var a, fair :| WorkerStep(s, a, fair, s');
      WorkerProcesses(s, a, fair, s');
    } else {
      StopperFrame(s, s');
    }
  }

  lemma WorkerProcesses(s: State, a: Action<Item>, fair: bool, s': State)
    requires WorkerStep(s, a, fair, s') && (s.hist.finalFlush ==> s.worker == Finished)
    ensures s'.hist.finalFlush ==> s'.worker == Finished
    ensures s'.hist.done != s.hist.done ==>
              && s.worker == Process && s.batch != [] && s'.hist.done == s.hist.done + [s.batch[0]]
              && !s.hist.finalFlush && !s'.hist.finalFlush
    ensures s.hist.finalFlush ==> s'.hist.finalFlush
  {
  }

  /** Steps that process nothing leave what the sinks should have received for items as it was. */
  lemma OtherStepsCallNothing(s: State, s': State)
    requires Inv(s) && Step(s, s')
    ensures CallsFor(s'.log.items, s.hist.done) == CallsFor(s.log.items, s.hist.done)
  {
    StepKeeps(s, s');
    BatchWasDequeued(s);
    forall i | 0 <= i < |s.hist.done| ensures s.hist.done[i] < |s.log.items| {
      assert s.hist.done[i] in s.hist.done;
    }
    CallsStay(s.log.items, s'.log.items, s.hist.done);
  }

  /** Each step calls the sinks exactly as is due. */
  lemma StepCalls(s: State, s': State)
    requires Inv(s) && Step(s, s') && (s.hist.finalFlush ==> s.worker == Finished)
    ensures Due(s') == Due(s) + CallsMade(s, s')
  {
    StepProcesses(s, s');
    OtherStepsCallNothing(s, s');
    if s'.hist.done != s.hist.done {
      ItemCalled(s, s');
      DueForItem(s, s', s.batch[0]);
    } else {
      DueForFlush(s, s');
    }
  }

  lemma DueForItem(s: State, s': State, t: nat)
    requires s'.hist.done == s.hist.done + [t] && !s.hist.finalFlush && !s'.hist.finalFlush
    requires CallsFor(s'.log.items, s'.hist.done) == CallsFor(s.log.items, s.hist.done) + [CallFor(s.log.items, t)]
    ensures Due(s') == Due(s) + CallsMade(s, s')
  {
    assert s'.hist.done[|s.hist.done|] == t;
  }

  lemma DueForFlush(s: State, s': State)
    requires s'.hist.done == s.hist.done && (s.hist.finalFlush ==> s'.hist.finalFlush)
    requires CallsFor(s'.log.items, s'.hist.done) == CallsFor(s.log.items, s.hist.done)
    ensures Due(s') == Due(s) + CallsMade(s, s')
  {
  }

  lemma ItemCalled(s: State, s': State)
    requires Inv(s) && Step(s, s')
    requires s.worker == Process && s.batch != [] && s'.hist.done == s.hist.done + [s.batch[0]]
    ensures CallFor(s'.log.items, s.batch[0]) == CallFor(s.log.items, s.batch[0])
    ensures CallsFor(s'.log.items, s'.hist.done) ==
            CallsFor(s'.log.items, s.hist.done) + [CallFor(s'.log.items, s.batch[0])]
  {
    StepKeeps(s, s');
    BatchWasDequeued(s);
    assert s.batch[0] in s.batch;
    assert s'.hist.done[..|s.hist.done|] == s.hist.done;
  }

  /** A run, and what each of `n` sinks has received in each of its states: nothing at first, then what steps call. */
  ghost predicate SinkRun(states: seq<State>, received: seq<seq<seq<Call>>>, n: nat) {
    && Run(states) && |received| == |states|
    && (forall k :: 0 <= k < |received| ==> |received[k]| == n)
    && (forall i :: 0 <= i < n ==> received[0][i] == [])
    && forall k: nat :: k < |states| - 1 ==> CalledAt(states, received, n, k)
  }

  ghost predicate CalledAt(states: seq<State>, received: seq<seq<seq<Call>>>, n: nat, k: nat) {
    && k + 1 < |states| && k + 1 < |received| && |received[k]| == |received[k + 1]| == n
    && forall i :: 0 <= i < n ==> received[k + 1][i] == received[k][i] + CallsMade(states[k], states[k + 1])
  }

  lemma {:induction false} FlushedLast(states: seq<State>, k: nat)
    requires Run(states) && k < |states|
    ensures states[k].hist.finalFlush ==> states[k].worker == Finished
  {
    if k > 0 {
      FlushedLast(states, k - 1);
      RunInv(states, k - 1);
      assert StepAt(states, k - 1);
      StepProcesses(states[k - 1], states[k]);
    }
  }

  lemma DueNext(states: seq<State>, k: nat)
    requires Run(states) && k + 1 < |states|
    ensures Due(states[k + 1]) == Due(states[k]) + CallsMade(states[k], states[k + 1])
  {
    FlushedLast(states, k);
    RunInv(states, k);
    assert StepAt(states, k);
    StepCalls(states[k], states[k + 1]);
  }

  /**
  In every state of every run each sink has received exactly the calls for the items processed, in that order, and
  at the end of the worker one flush more; whichever calls threw, on whichever sinks.
  */
  lemma {:induction false} EachReceivesWhatIsDue(states: seq<State>, received: seq<seq<seq<Call>>>, n: nat,
                                                 k: nat, i: nat)
    requires SinkRun(states, received, n) && k < |states| && i < n
    ensures received[k][i] == Due(states[k])
  {
    if k > 0 {
      EachReceivesWhatIsDue(states, received, n, k - 1, i);
      DueNext(states, k - 1);
      assert CalledAt(states, received, n, k - 1);
    }
  }

  /**
  Before anything is lost, the events written to each sink are a prefix of the accepted events without exactly the
  evicted ones, in ticket order.
  */
  lemma WrittenInOrder(states: seq<State>, received: seq<seq<seq<Call>>>, n: nat, k: nat, i: nat)
    requires SinkRun(states, received, n) && k < |states| && i < n && states[k].hist.lost == []
    ensures var s := states[k];
            WritesOf(received[k][i]) <= Survivors(s.log.items, s.hist.takers, |s.log.items|)
  {
    var s := states[k];
    EachReceivesWhatIsDue(states, received, n, k, i);
    RunInv(states, k);
    WritesAreEvents(s.log.items, s.hist.done);
    OfferedInOrder(s);
    var calls := CallsFor(s.log.items, s.hist.done);
    if s.hist.finalFlush {
      assert (calls + [Flush])[..|calls|] == calls;
    } else {
      assert calls + [] == calls;
    }
  }

  lemma {:induction false} CallOfEach(items: seq<Item>, tickets: seq<nat>)
    ensures |CallsFor(items, tickets)| == |tickets|
    ensures forall i :: 0 <= i < |tickets| ==> CallsFor(items, tickets)[i] == CallFor(items, tickets[i])
  {
    if tickets != [] {
      CallOfEach(items, tickets[..|tickets| - 1]);
    }
  }

  /** The event has been written, and after that the sink flushed. */
  ghost predicate WrittenAndFlushed(calls: seq<Call>, t: nat) {
    exists a, b :: 0 <= a < b < |calls| && calls[a] == Write(t) && calls[b] == Flush
  }

  lemma FlushedCalls(s: State, t: nat)
    requires FlushedAfter(s, t) && IsEvent(s.log.items, t)
    ensures WrittenAndFlushed(Due(s), t)
  {
    var i, j :| 0 <= i <= j < |s.hist.done| && s.hist.done[i] == t && FlushesSinks(s, s.hist.done[j]);
    CallOfEach(s.log.items, s.hist.done);
    assert i != j;
    assert Due(s)[i] == Write(t) && Due(s)[j] == Flush;
  }

  /**
  What a caller of `flush` gets from the sinks. When the call returns before stopping_ is set, every event published
  before the call has been written to each sink and the sink flushed afterwards, unless a producer evicted the event.
  */
  lemma FlushReachesSinks(states: seq<State>, received: seq<seq<seq<Call>>>, n: nat, i: nat,
                          j: nat, k: nat, c: nat, f: nat, t: nat)
    requires SinkRun(states, received, n) && i < n
    requires k + 1 < |states| && StillIn(states, j, k, c) && Calls(states[j], states[j + 1], c, f)
    requires c in states[k + 1].clients && states[k + 1].clients[c] == Idle && !states[k + 1].stopping
    requires t in states[j].log.published && IsEvent(states[k + 1].log.items, t)
    ensures WasEvicted(states[k + 1], t) || WrittenAndFlushed(received[k + 1][i], t)
  {
    ReturnedFlushDelivered(states, j, k, c, f, t);
    EachReceivesWhatIsDue(states, received, n, k + 1, i);
    if !WasEvicted(states[k + 1], t) {
      FlushedCalls(states[k + 1], t);
    }
  }
}
