/**
That `flush` returns, and when. A processed request has raised completed_flush_id_, so that the flush can go on; the
worker gets to a queued request in a bounded number of its steps; and a flush that returns before shutdown has kept
its promise.
*/
module DispatcherReturn {
  import opened TicketLog
  import opened Dispatcher
  import opened DispatcherInvariant
  import opened DispatcherFlush
  import opened DispatcherShutdown
  import opened DispatcherEviction

  // Processing a request raises completed_flush_id_.

  /** The worker has processed request `id` and not yet raised completed_flush_id_ to it. */
  predicate Raising(w: Worker, id: nat) {
    (w.LoadCompleted? || w.Raise?) && w.id == id
  }

  ghost predicate RaisedFor(s: State, t: nat) {
    t < |s.log.items| &&
    (s.log.items[t].FlushRequest? ==> s.completed >= s.log.items[t].id || Raising(s.worker, s.log.items[t].id))
  }

  ghost predicate Raised(s: State) {
    && (s.worker.Raise? ==> s.worker.seen <= s.completed)
    && forall t :: t in s.hist.done ==> RaisedFor(s, t)
  }

  lemma ClientRaises(s: State, c: nat, a: Action<Item>, s': State)
    requires Inv(s) && Raised(s) && ClientStep(s, c, a, s')
    ensures Raised(s')
  {
    assert ClientOk(s, s.clients[c]);
    FrameOfClient(s, c, a, s');
    ClientExtends(s, c, a, s');
    forall t | t in s'.hist.done ensures RaisedFor(s', t) {
      assert RaisedFor(s, t);
    }
  }

  lemma ProcessRaises(s: State, fair: bool, s': State)
    requires !s.worker.Gathering() && ProcessStep(s, fair, s') && Raised(s)
    ensures Raised(s')
  {
    forall t | t in s'.hist.done ensures RaisedFor(s', t) {
      if t in s.hist.done {
        assert RaisedFor(s, t);
      }
    }
  }

  lemma GatherRaises(s: State, a: Action<Item>, s': State)
    requires s.worker.Gathering() && GatherStep(s, a, s') && Raised(s)
    ensures Raised(s')
  {
    forall t | t in s'.hist.done ensures RaisedFor(s', t) {
      assert RaisedFor(s, t);
    }
  }

  lemma StopperRaises(s: State, s': State)
    requires s' == s.(stopping := s'.stopping, completed := s'.completed, stopper := s'.stopper)
    requires Raised(s) && s.completed <= s'.completed
    ensures Raised(s')
  {
    forall t | t in s'.hist.done ensures RaisedFor(s', t) {
      assert RaisedFor(s, t);
    }
  }

  lemma StepRaises(s: State, s': State)
    requires Inv(s) && Raised(s) && Step(s, s')
    ensures Raised(s')
  {
    if AClientSteps(s, s') {
      var c, a :| ClientStep(s, c, a, s');
      ClientRaises(s, c, a, s');
    } else if TheWorkerSteps(s, s') {
      var a, fair :| WorkerStep(s, a, fair, s');
      if s.worker.Gathering() {
        GatherRaises(s, a, s');
      } else {
        ProcessRaises(s, fair, s');
      }
    } else {
      StopperFrame(s, s');
      StopperRaises(s, s');
    }
  }

  ghost predicate RaisedAt(states: seq<State>, k: nat) {
    k < |states| && Raised(states[k])
  }

  lemma StepsRaise(states: seq<State>)
    ensures forall k: nat :: (StepAt(states, k) && InvAt(states, k) && RaisedAt(states, k)) ==> RaisedAt(states, k + 1)
  {
    forall k: nat | StepAt(states, k) && InvAt(states, k) && RaisedAt(states, k) ensures RaisedAt(states, k + 1) {
      StepRaises(states[k], states[k + 1]);
    }
  }

  lemma {:induction false} RunRaises(states: seq<State>, n: nat)
    requires Run(states) && n < |states|
    ensures RaisedAt(states, n)
  {
    if n > 0 {
      RunRaises(states, n - 1);
      RunInvUpTo(states, n - 1);
      assert StepAt(states, n - 1) && InvAt(states, n - 1);
      StepsRaise(states);
    }
  }

  lemma ReachedRaised(s: State)
    requires Reachable(s)
    ensures Inv(s) && Raised(s)
  {
    var states :| Run(states) && states[|states| - 1] == s;
    RunRaises(states, |states| - 1);
    ReachedInv(s);
  }

  /** In every reachable state completed_flush_id_ has reached every processed request but the one being processed. */
  lemma ProcessedIsCompleted(s: State, t: nat)
    requires Reachable(s) && t in s.hist.done
    ensures t < |s.log.items|
    ensures s.log.items[t].FlushRequest? ==> s.completed >= s.log.items[t].id || Raising(s.worker, s.log.items[t].id)
  {
    ReachedRaised(s);
    assert RaisedFor(s, t);
  }

  /** A flush whose request has been processed can return. */
  lemma ProcessedFlushReturns(s: State, c: nat, id: nat, t: nat)
    requires Reachable(s) && c in s.clients && s.clients[c] == FlWait(id)
    requires t in s.hist.done && t < |s.log.items| && s.log.items[t] == FlushRequest(id) && !Raising(s.worker, id)
    ensures ClientStep(s, c, Tau, s.With(c, Idle))
  {
    ProcessedIsCompleted(s, t);
  }

  // The worker gets there.

  /** The request of flush `id` is in ticket `t`, with everything before it published, and no producer has taken it. */
  ghost predicate Queued(s: State, id: nat, t: nat) {
    && t < |s.log.items| && s.log.items[t] == FlushRequest(id)
    && forall u: nat :: u <= t ==> u in s.log.published
  }

  predicate WasEvicted(s: State, t: nat) {
    t < |s.hist.takers| && s.hist.takers[t] == ByProducer
  }

  /** A bound on the worker's fair steps until completed_flush_id_ has reached the request in ticket `t`. */
  function StepsTo(s: State, t: nat): int {
    (6 * s.options.batchSize + 30) * (if s.log.taken <= t then t + 1 - s.log.taken else 0) + Phase(s)
  }

  function Phase(s: State): int {
    var n, b := s.options.batchSize, |s.batch|;
    match s.worker
    case Top => 3
    case Dequeue(again) => if again then 1 else 2
    case Recheck => 4
    case HandRelease(_) => 6 * n + 12
    case Branch(_) => 6 * n + 11
    case Fill => 6 * n - 2 * b + 10
    case FillRelease(_) => 6 * n - 2 * b + 9
    case Process => 4 * b + 5
    case LoadCompleted(_) => 4 * b + 8
    case Raise(id, seen) => 4 * b + if seen < id && seen != s.completed then 7 else 6
    case _ => 0
  }

  /** Until then the worker never finds the queue empty. */
  lemma NotYet(s: State, id: nat, t: nat)
    requires Inv(s) && Raised(s) && !s.stopping && Queued(s, id, t) && !WasEvicted(s, t) && s.completed < id
    ensures s.log.taken <= t ==> s.log.CanTake()
    ensures s.worker.Top? || s.worker.Dequeue? || s.worker.Recheck? ==> s.log.taken <= t
  {
    if s.log.taken > t && (s.worker.Top? || s.worker.Dequeue? || s.worker.Recheck?) {
      TakenIsDone(s, t);
    }
  }

  lemma TakenIsDone(s: State, t: nat)
    requires Inv(s) && !s.stopping && t < s.log.taken && !WasEvicted(s, t) && s.Held() == []
    ensures t in s.hist.done
  {
    OwnedByMembers(s.hist.takers);
    HandledWithoutLoss(s.hist);
    assert t in OwnedBy(s.hist.takers);
    assert s.hist.done + [] == s.hist.done;
  }

  lemma GatherNears(s: State, a: Action<Item>, s': State, t: nat)
    requires s.log.WellFormed() && WorkerOk(s) && !s.stopping && s.worker.Gathering() && GatherStep(s, a, s')
    requires s.log.taken <= t ==> s.log.CanTake()
    requires s.worker.Top? || s.worker.Dequeue? || s.worker.Recheck? ==> s.log.taken <= t
    ensures StepsTo(s', t) < StepsTo(s, t)
  {
    if a.Took? && s.log.taken <= t {
      OneLess(6 * s.options.batchSize + 30, t + 1 - s.log.taken);
    }
  }

  lemma OneLess(k: int, n: int)
    ensures k * (n - 1) == k * n - k
  {
  }

  lemma ProcessNears(s: State, fair: bool, s': State, t: nat)
    requires s.log.WellFormed() && WorkerOk(s) && !s.stopping && !s.worker.Gathering() && ProcessStep(s, fair, s')
    ensures if fair then StepsTo(s', t) < StepsTo(s, t) else StepsTo(s', t) <= StepsTo(s, t)
  {
  }

  /** How far off it is that the worker has been through ticket `t`, or a producer has taken it. */
  ghost predicate Nears(s: State, fair: bool, s': State, id: nat, t: nat) {
    && Queued(s', id, t)
    && (s'.completed >= id || WasEvicted(s', t) ||
        if fair then StepsTo(s', t) < StepsTo(s, t) else StepsTo(s', t) <= StepsTo(s, t))
  }

  lemma QueuedStays(s: State, s': State, id: nat, t: nat)
    requires Queued(s, id, t) && Extends(s, s')
    ensures Queued(s', id, t) && (s.completed >= id ==> s'.completed >= id) && (WasEvicted(s, t) ==> WasEvicted(s', t))
  {
  }

  lemma WorkerNears(s: State, fair: bool, s': State, id: nat, t: nat)
    requires Inv(s) && Raised(s) && !s.stopping && Queued(s, id, t) && !WasEvicted(s, t) && s.completed < id
    requires WorkerMoves(s, fair, s')
    ensures Nears(s, fair, s', id, t)
  {
    var a :| WorkerStep(s, a, fair, s');
    assert TheWorkerSteps(s, s');
    WorkerStepKeeps(s, s');
    QueuedStays(s, s', id, t);
    NotYet(s, id, t);
    if s.worker.Gathering() {
      GatherNears(s, a, s', t);
    } else {
      ProcessNears(s, fair, s', t);
    }
  }

  lemma ClientLeavesWorker(s: State, c: nat, a: Action<Item>, s': State)
    requires Inv(s) && !s.stopping && ClientStep(s, c, a, s')
    ensures s'.worker == s.worker && s'.batch == s.batch && s'.options == s.options && s'.completed == s.completed
    ensures s'.log.taken == s.log.taken + if a.Took? then 1 else 0
    ensures Extends(s, s')
  {
    assert ClientOk(s, s.clients[c]);
    FrameOfClient(s, c, a, s');
    ClientExtends(s, c, a, s');
    ClientEffect(s, c, a, s');
  }

  /** No client sends the worker back. */
  lemma ClientNears(s: State, c: nat, a: Action<Item>, s': State, id: nat, t: nat)
    requires Inv(s) && !s.stopping && Queued(s, id, t) && ClientStep(s, c, a, s')
    ensures Nears(s, false, s', id, t)
  {
    ClientLeavesWorker(s, c, a, s');
    QueuedStays(s, s', id, t);
    if a.Took? && s.log.taken <= t {
      OneLess(6 * s.options.batchSize + 30, t + 1 - s.log.taken);
    }
  }

  // Over a run. `fair` marks fair steps of the worker.

  ghost predicate MarkedStep(s: State, fair: bool, s': State) {
    if fair then WorkerMoves(s, true, s') else Step(s, s')
  }

  lemma AnyNears(s: State, fair: bool, s': State, id: nat, t: nat)
    requires Inv(s) && Raised(s) && !s.stopping && !s'.stopping && MarkedStep(s, fair, s')
    requires Queued(s, id, t) && !WasEvicted(s, t) && s.completed < id
    ensures Nears(s, fair, s', id, t)
  {
    if fair {
      WorkerNears(s, true, s', id, t);
    } else if AClientSteps(s, s') {
      var c, a :| ClientStep(s, c, a, s');
      ClientNears(s, c, a, s', id, t);
    } else if TheWorkerSteps(s, s') {
      var a, any :| WorkerStep(s, a, any, s');
      assert WorkerMoves(s, any, s');
      WorkerNears(s, any, s', id, t);
    } else {
      StopperFrame(s, s');
    }
  }

  lemma MarkedReaches(s: State, fair: bool, s': State)
    requires Reachable(s) && MarkedStep(s, fair, s')
    ensures Reachable(s') && Extends(s, s')
  {
    if fair {
      var a :| WorkerStep(s, a, true, s');
      assert TheWorkerSteps(s, s');
    }
    ReachStep(s, s');
    ReachedInv(s);
    StepKeeps(s, s');
  }

  ghost predicate MarkedAt(states: seq<State>, fair: seq<bool>, k: nat) {
    && k < |fair| && |states| == |fair| + 1 && !states[k + 1].stopping
    && MarkedStep(states[k], fair[k], states[k + 1])
  }

  /** A stretch of a run that begins with the request of flush `id` in ticket `t` and ends before stopping_ is set. */
  ghost predicate Flushing(states: seq<State>, fair: seq<bool>, id: nat, t: nat) {
    && |states| == |fair| + 1 && Reachable(states[0]) && !states[0].stopping && Queued(states[0], id, t)
    && forall k: nat :: k < |fair| ==> MarkedAt(states, fair, k)
  }

  /** Flush `id` has been let through, its request evicted, or the worker has come `moves` steps nearer. */
  ghost predicate NearerBy(first: State, s: State, moves: nat, id: nat, t: nat) {
    && Reachable(s) && !s.stopping && Queued(s, id, t)
    && (s.completed >= id || WasEvicted(s, t) || moves + StepsTo(s, t) <= StepsTo(first, t))
  }

  lemma NearerStep(first: State, s: State, moves: nat, fair: bool, s': State, id: nat, t: nat)
    requires NearerBy(first, s, moves, id, t) && MarkedStep(s, fair, s') && !s'.stopping
    ensures NearerBy(first, s', moves + if fair then 1 else 0, id, t)
  {
    MarkedReaches(s, fair, s');
    QueuedStays(s, s', id, t);
    ReachedRaised(s);
    if s.completed < id && !WasEvicted(s, t) {
      AnyNears(s, fair, s', id, t);
    }
  }

  lemma {:induction false} FlushingNears(states: seq<State>, fair: seq<bool>, id: nat, t: nat, n: nat)
    requires Flushing(states, fair, id, t) && n <= |fair|
    ensures NearerBy(states[0], states[n], FairSteps(fair[..n]), id, t)
  {
    if n > 0 {
      FlushingNears(states, fair, id, t, n - 1);
      MarkedNears(states, fair, id, t, n - 1);
    }
  }

  lemma MarkedNears(states: seq<State>, fair: seq<bool>, id: nat, t: nat, n: nat)
    requires MarkedAt(states, fair, n) && NearerBy(states[0], states[n], FairSteps(fair[..n]), id, t)
    ensures NearerBy(states[0], states[n + 1], FairSteps(fair[..n + 1]), id, t)
  {
    assert fair[..n + 1][..n] == fair[..n];
    NearerStep(states[0], states[n], FairSteps(fair[..n]), fair[n], states[n + 1], id, t);
  }

  lemma StepsToIsPositive(s: State, t: nat)
    requires Inv(s) && !s.stopping
    ensures StepsTo(s, t) > 0
  {
    assert (6 * s.options.batchSize + 30) * (if s.log.taken <= t then t + 1 - s.log.taken else 0) >= 0;
  }

  /**
  The worker gets to a queued request in a bounded number of fair steps, whatever the other threads do meanwhile:
  after that many completed_flush_id_ has reached it, unless a producer has evicted it or shutdown has begun.
  */
  lemma WorkerReachesRequest(states: seq<State>, fair: seq<bool>, id: nat, t: nat)
    requires Flushing(states, fair, id, t) && FairSteps(fair) >= StepsTo(states[0], t)
    ensures states[|fair|].completed >= id || WasEvicted(states[|fair|], t)
  {
    FlushingNears(states, fair, id, t, |fair|);
    assert fair[..|fair|] == fair;
    ReachedInv(states[|fair|]);
    StepsToIsPositive(states[|fair|], t);
  }

  // And so a flush can return at any time before shutdown, the worker making the steps it can make.

  /** Client `c` waits for flush `id`, whose request is in ticket `t`; stopping_ is not set. */
  ghost predicate Waits(s: State, c: nat, id: nat, t: nat) {
    && Reachable(s) && !s.stopping && Queued(s, id, t) && !WasEvicted(s, t)
    && c in s.clients && s.clients[c] == FlWait(id)
  }

  lemma WorkerLeavesWaiting(s: State, c: nat, id: nat, t: nat, s': State)
    requires Waits(s, c, id, t) && WorkerMoves(s, true, s')
    ensures Waits(s', c, id, t) && s'.nextFlush == s.nextFlush
    ensures s.completed < id ==> s'.completed >= id || StepsTo(s', t) < StepsTo(s, t)
  {
    ReachedRaised(s);
    MarkedReaches(s, true, s');
    QueuedStays(s, s', id, t);
    WorkerAlone(s, s');
    if s.completed < id {
      WorkerNears(s, true, s', id, t);
    }
  }

  lemma WorkerAlone(s: State, s': State)
    requires Inv(s) && WorkerMoves(s, true, s')
    ensures s'.clients == s.clients && s'.stopping == s.stopping && s'.nextFlush == s.nextFlush
    ensures forall t :: WasEvicted(s', t) ==> WasEvicted(s, t)
  {
    var a :| WorkerStep(s, a, true, s');
    WorkerKeeps(s, a, true, s');
  }

  /** From any state in which a flush waits, some run of the worker alone lets it return. */
  lemma {:induction false} WaitEnds(s: State, c: nat, id: nat, t: nat) returns (s': State)
    requires Waits(s, c, id, t)
    ensures Waits(s', c, id, t) && s'.completed >= id && s'.nextFlush == s.nextFlush
    ensures ClientStep(s', c, Tau, s'.With(c, Idle)) && Reachable(s'.With(c, Idle))
    decreases if s.completed >= id then 0 else if StepsTo(s, t) < 0 then 0 else StepsTo(s, t)
  {
    ReachedInv(s);
    if s.completed >= id {
      s' := s;
      ReachClient(s, c, Tau, s.With(c, Idle));
    } else {
      StepsToIsPositive(s, t);
      assert s.worker != Finished;
      var a, next := WorkerCanMove(s);
      assert WorkerMoves(s, true, next) && MarkedStep(s, true, next);
      MarkedReaches(s, true, next);
      WorkerLeavesWaiting(s, c, id, t, next);
      s' := WaitEnds(next, c, id, t);
    }
  }

  lemma WaitingWaits()
    ensures Waits(Waiting(), 0, 1, 0) && Waiting().nextFlush == 1
  {
    FlushWaits();
  }

  /** A flush that has returned before stopping_ is set. */
  lemma AFlushReturns() returns (s: State)
    ensures Reachable(s) && !s.stopping && s.nextFlush == 1 && s.completed >= 1
    ensures 0 in s.clients && s.clients[0] == Idle
  {
    WaitingWaits();
    var before := WaitEnds(Waiting(), 0, 1, 0);
    s := before.With(0, Idle);
  }

  // What a caller of `flush` has when it returns.

  /** Inside the call of `flush` that has id `f`. */
  predicate InCall(pc: Client, f: nat) {
    match pc
    case FlCheck(id, k) => id == f && k == Caller
    case FlTry(id, k) => id == f && k == Caller
    case FlPublish(id, _, k) => id == f && k == Caller
    case FlStop(id, k) => id == f && k == Caller
    case FlLoad(id, k) => id == f && k == Caller
    case FlRaise(id, _, k) => id == f && k == Caller
    case FlWait(id) => id == f
    case _ => false
  }

  /** The call ends only with completed_flush_id_ high enough. */
  lemma CallStays(s: State, c: nat, a: Action<Item>, s': State, f: nat)
    requires ClientStep(s, c, a, s') && InCall(s.clients[c], f)
    ensures c in s'.clients
    ensures InCall(s'.clients[c], f) || (s'.clients[c] == Idle && s'.completed >= f)
  {
  }

  lemma StepOfCall(s: State, s': State, c: nat, f: nat)
    requires Inv(s) && Step(s, s') && c in s.clients && InCall(s.clients[c], f)
    ensures c in s'.clients
    ensures InCall(s'.clients[c], f) || (s'.clients[c] == Idle && s'.completed >= f)
  {
    if AClientSteps(s, s') {
      var d, a :| ClientStep(s, d, a, s');
      if d == c {
        CallStays(s, c, a, s', f);
      } else {
        assert ClientOk(s, s.clients[d]);
        FrameOfClient(s, d, a, s');
      }
    } else if TheWorkerSteps(s, s') {
      var a, fair :| WorkerStep(s, a, fair, s');
      WorkerKeeps(s, a, fair, s');
    } else {
      StopperFrame(s, s');
    }
  }

  /** Client `c` calls `flush` in step j and gets id `f`. */
  ghost predicate Calls(s: State, s': State, c: nat, f: nat) {
    && c in s.clients && s.clients[c] == Idle
    && c in s'.clients && s'.clients[c] == FlCheck(f, Caller)
  }

  lemma CallGetsId(s: State, s': State, c: nat, f: nat)
    requires Inv(s) && Step(s, s') && Calls(s, s', c, f)
    ensures s.nextFlush + 1 == s'.nextFlush == f
  {
    if AClientSteps(s, s') {
      var d, a :| ClientStep(s, d, a, s');
      if d != c {
        assert ClientOk(s, s.clients[d]);
        FrameOfClient(s, d, a, s');
      }
    } else if TheWorkerSteps(s, s') {
      var a, fair :| WorkerStep(s, a, fair, s');
      WorkerKeeps(s, a, fair, s');
    } else {
      StopperFrame(s, s');
    }
  }

  /** Client `c` has been in the call since step j and is in it in state k. */
  ghost predicate StillIn(states: seq<State>, j: nat, k: nat, c: nat) {
    j < k < |states| && forall i :: j < i <= k ==> Busy(states[i], c)
  }

  predicate Busy(s: State, c: nat) {
    c in s.clients && s.clients[c] != Idle
  }

  lemma NextOfCall(states: seq<State>, i: nat, c: nat, f: nat)
    requires Run(states) && i + 1 < |states| && c in states[i].clients && InCall(states[i].clients[c], f)
    ensures c in states[i + 1].clients
    ensures var pc := states[i + 1].clients[c]; InCall(pc, f) || (pc == Idle && states[i + 1].completed >= f)
  {
    RunInv(states, i);
    assert StepAt(states, i);
    StepOfCall(states[i], states[i + 1], c, f);
  }

  lemma CallHasId(states: seq<State>, j: nat, c: nat, f: nat)
    requires Run(states) && j + 1 < |states| && Calls(states[j], states[j + 1], c, f)
    ensures states[j].nextFlush + 1 == states[j + 1].nextFlush == f
  {
    RunInv(states, j);
    assert StepAt(states, j);
    CallGetsId(states[j], states[j + 1], c, f);
  }

  lemma {:induction false} CallLasts(states: seq<State>, j: nat, k: nat, c: nat, f: nat)
    requires Run(states) && StillIn(states, j, k, c) && Calls(states[j], states[j + 1], c, f)
    ensures InCall(states[k].clients[c], f)
  {
    if k > j + 1 {
      CallLasts(states, j, k - 1, c, f);
      NextOfCall(states, k - 1, c, f);
    }
  }

  /**
  When a call of `flush` returns before stopping_ is set, every ticket published before the call has been offered to
  all sinks with the sinks flushed afterwards, or was evicted.
  */
  lemma ReturnedFlushDelivered(states: seq<State>, j: nat, k: nat, c: nat, f: nat, t: nat)
    requires Run(states) && k + 1 < |states| && StillIn(states, j, k, c) && Calls(states[j], states[j + 1], c, f)
    requires c in states[k + 1].clients && states[k + 1].clients[c] == Idle && !states[k + 1].stopping
    requires t in states[j].log.published
    ensures Delivered(states[k + 1], t)
  {
    CallLasts(states, j, k, c, f);
    CallHasId(states, j, c, f);
    NextOfCall(states, k, c, f);
    FlushDelivers(states, j, k + 1, f, t);
  }
}
