/**
Shutdown leaves nobody hanging: once it has raised completed_flush_id_ to its maximum, every `flush` and `dispatch`
still running ends after at most nine more steps of its own, and each of these is always possible.
*/
module DispatcherRelease {
  import opened TicketLog
  import opened Dispatcher
  import opened DispatcherInvariant

  /** Shutdown joins the worker only after it has raised completed_flush_id_, and then waits for it to finish. */
  ghost predicate RaisedBeforeJoin(s: State) {
    && (s.stopper == Joining || s.stopper == Joined ==> s.completed == MAX_ID)
    && (s.stopper == Joined ==> s.worker == Finished)
  }

  lemma StepRaised(s: State, s': State)
    requires Inv(s) && Step(s, s') && RaisedBeforeJoin(s)
    ensures RaisedBeforeJoin(s')
  {
    StepKeeps(s, s');
    if AClientSteps(s, s') {
      var c, a :| ClientStep(s, c, a, s');
      assert ClientOk(s, s.clients[c]);
      FrameOfClient(s, c, a, s');
    } else if TheWorkerSteps(s, s') {
      var a, fair :| WorkerStep(s, a, fair, s');
      WorkerKeeps(s, a, fair, s');
    }
  }

  lemma {:induction false} RunRaised(states: seq<State>, n: nat)
    requires Run(states) && n < |states|
    ensures RaisedBeforeJoin(states[n])
  {
    if n > 0 {
      RunRaised(states, n - 1);
      RunInv(states, n - 1);
      assert StepAt(states, n - 1);
      StepRaised(states[n - 1], states[n]);
    }
  }

  /** Shutdown has raised completed_flush_id_ and joins the worker, or has joined it. */
  ghost predicate Released(s: State) {
    Reachable(s) && (s.stopper == Joining || s.stopper == Joined)
  }

  lemma ReleasedState(s: State)
    requires Released(s)
    ensures Inv(s) && s.completed == MAX_ID && s.stopping
  {
    ReachedRaised(s);
    ReachedInv(s);
  }

  /** When shutdown has returned the worker has ended, its last flush of the sinks made. */
  lemma ShutdownWaits(s: State)
    requires Reachable(s) && s.stopper == Joined
    ensures s.worker == Finished && s.hist.finalFlush
  {
    ReachedRaised(s);
    ReachedInv(s);
  }

  lemma ReachedRaised(s: State)
    requires Reachable(s)
    ensures RaisedBeforeJoin(s)
  {
    var states :| Run(states) && states[|states| - 1] == s;
    RunRaised(states, |states| - 1);
  }

  /** Every waiting flush can go on at once. */
  lemma WaitsEnd(s: State, c: nat)
    requires Released(s) && c in s.clients && s.clients[c].FlWait?
    ensures ClientStep(s, c, Tau, s.With(c, Idle))
  {
    ReleasedState(s);
    assert ClientOk(s, s.clients[c]);
  }

  /** The steps a call that is running when completed_flush_id_ has been raised can still take. */
  function StepsLeft(pc: Client): nat {
    match pc
    case Idle => 0
    case EvDrop => 1
    case EvPublish(_) => 1
    case EvCheck(_) => 2
    case EvStop(_) => 2
    case EvTry(_, first) => if first then 4 else 3
    case EvCount(_, _) => 7
    case EvEvict(_, _) => 8
    case EvPolicy(_) => 9
    case FlWait(_) => 1
    case FlPublish(_, _, k) => Then(k) + 1
    case FlRaise(id, seen, k) => Then(k) + if seen < id then 2 else 1
    case FlLoad(_, k) => Then(k) + 2
    case FlStop(_, k) => Then(k) + 3
    case FlCheck(_, k) => Then(k) + 3
    case FlTry(_, k) => Then(k) + 4
  }

  function Then(k: Continuation): nat {
    if k.Caller? then 1 else 3
  }

  lemma EventsEnd(s: State, c: nat, a: Action<Item>, s': State)
    requires c in s.clients && s.clients[c].InEvent() && EventStep(s, c, a, s') && s.stopping
    ensures c in s'.clients && StepsLeft(s'.clients[c]) < StepsLeft(s.clients[c])
  {
  }

  lemma FlushesEnd(s: State, c: nat, a: Action<Item>, s': State)
    requires c in s.clients && s.clients[c].InFlush() && FlushStep(s, c, a, s') && s.stopping
    requires ClientOk(s, s.clients[c]) && s.nextFlush <= s.completed
    ensures c in s'.clients && StepsLeft(s'.clients[c]) < StepsLeft(s.clients[c])
  {
  }

  lemma OwnStep(s: State, c: nat, a: Action<Item>, s': State)
    requires Released(s) && ClientStep(s, c, a, s') && s.clients[c] != Idle
    ensures c in s'.clients && StepsLeft(s'.clients[c]) < StepsLeft(s.clients[c])
  {
    ReleasedState(s);
    assert ClientOk(s, s.clients[c]);
    if s.clients[c].InEvent() {
      EventsEnd(s, c, a, s');
    } else {
      FlushesEnd(s, c, a, s');
    }
  }

  lemma OthersStep(s: State, d: nat, a: Action<Item>, s': State, c: nat)
    requires Inv(s) && ClientStep(s, d, a, s') && c in s.clients && c != d
    ensures c in s'.clients && s'.clients[c] == s.clients[c]
  {
    assert ClientOk(s, s.clients[d]);
    FrameOfClient(s, d, a, s');
  }

  /** Each step of a call brings it nearer its end, and no other step changes where it is. */
  lemma CallsEnd(s: State, s': State, c: nat)
    requires Released(s) && Step(s, s') && c in s.clients && s.clients[c] != Idle
    ensures c in s'.clients && (s'.clients[c] == s.clients[c] || StepsLeft(s'.clients[c]) < StepsLeft(s.clients[c]))
  {
    ReleasedState(s);
    if AClientSteps(s, s') {
      var d, a :| ClientStep(s, d, a, s');
      if d == c {
        OwnStep(s, c, a, s');
      } else {
        OthersStep(s, d, a, s', c);
      }
    } else if TheWorkerSteps(s, s') {
      var a, fair :| WorkerStep(s, a, fair, s');
      WorkerKeeps(s, a, fair, s');
    }
  }

  lemma StaysReleased(s: State, s': State)
    requires Released(s) && Step(s, s')
    ensures Released(s')
  {
    ReachStep(s, s');
    ReleasedState(s);
    if AClientSteps(s, s') {
      var c, a :| ClientStep(s, c, a, s');
      assert ClientOk(s, s.clients[c]);
      FrameOfClient(s, c, a, s');
    } else if TheWorkerSteps(s, s') {
      var a, fair :| WorkerStep(s, a, fair, s');
      WorkerKeeps(s, a, fair, s');
    }
  }

  /** Client `c` is in a call in each of these states but perhaps the last. */
  ghost predicate Calling(states: seq<State>, c: nat) {
    && states != []
    && (forall k :: 0 <= k < |states| ==> c in states[k].clients)
    && (forall k :: 0 <= k < |states| - 1 ==> states[k].clients[c] != Idle && Step(states[k], states[k + 1]))
  }

  /** How often it moved. */
  ghost function Moves(states: seq<State>, c: nat): nat
    requires Calling(states, c)
  {
    if |states| == 1 then 0
    else
      var n := |states| - 1;
      Moves(states[..n], c) + if states[n - 1].clients[c] != states[n].clients[c] then 1 else 0
  }

  lemma LastMove(states: seq<State>, c: nat)
    requires Calling(states, c) && |states| > 1 && Released(states[|states| - 2])
    ensures var pc, pc' := states[|states| - 2].clients[c], states[|states| - 1].clients[c];
            Released(states[|states| - 1]) && (pc' == pc || StepsLeft(pc') < StepsLeft(pc))
  {
    CallsEnd(states[|states| - 2], states[|states| - 1], c);
    StaysReleased(states[|states| - 2], states[|states| - 1]);
  }

  lemma CallingBefore(states: seq<State>, c: nat)
    requires Calling(states, c) && |states| > 1
    ensures Calling(states[..|states| - 1], c)
  {
  }

  /** However the threads are scheduled, a call still running takes at most nine more steps. */
  lemma {:induction false} AtMostNine(states: seq<State>, c: nat)
    requires Calling(states, c) && Released(states[0])
    ensures Released(states[|states| - 1])
    ensures Moves(states, c) + StepsLeft(states[|states| - 1].clients[c]) <= StepsLeft(states[0].clients[c]) <= 9
  {
    if |states| > 1 {
      var n := |states| - 1;
      CallingBefore(states, c);
      AtMostNine(states[..n], c);
      LastMove(states, c);
    }
  }

  lemma EventCanStep(s: State, c: nat) returns (a: Action<Item>, s': State)
    requires Inv(s) && c in s.clients && s.clients[c].InEvent()
    ensures EventStep(s, c, a, s')
  {
    assert ClientOk(s, s.clients[c]);
    a := Tau;
    match s.clients[c]
    case EvCheck(e) => s' := if s.stopping then Refuse(s, c) else s.With(c, EvTry(e, true));
    case EvTry(e, first) =>
      var n := |s.log.items|;
      if s.log.CanClaim() {
        a, s' := Claimed(n, Event(e)), s.With(c, EvPublish(n)).(log := s.log.Claim(Event(e)));
      } else {
        a, s' := SaidFull(n), s.With(c, if first then EvTry(e, false) else EvStop(e));
      }
    case EvPublish(t) => a, s' := Published(t), s.With(c, Idle).(log := s.log.Publish(t));
    case EvStop(e) => s' := if s.stopping then Refuse(s, c) else s.With(c, EvPolicy(e));
    case EvPolicy(e) => a, s' := PolicyCanStep(s, c, e);
    case EvDrop => s' := s.With(c, Idle).(dropped := s.dropped + 1);
    case EvEvict(e, t) => a, s' := Returned(t, s.log.items[t]), s.With(c, EvCount(e, t)).(log := s.log.Release(t));
    case EvCount(e, t) =>
      s' := s.With(c, if s.log.items[t].Event? then EvTry(e, false) else FlCheck(s.log.items[t].id, Evictor(e)))
            .(dropped := s.dropped + 1);
  }

  lemma PolicyCanStep(s: State, c: nat, e: nat) returns (a: Action<Item>, s': State)
    requires s.log.WellFormed()
    ensures PolicyStep(s, c, e, a, s')
  {
    if s.options.policy == DropNewest {
      a, s' := Tau, Refuse(s, c);
    } else if s.options.policy == Block {
      a, s' := Tau, s.With(c, EvTry(e, false));
    } else if s.log.CanTake() {
      a, s' := Took(s.log.taken), Evict(s, c, e);
    } else {
      a, s' := SaidEmpty(s.log.taken), s.With(c, EvTry(e, false));
    }
  }

  lemma FlushCanStep(s: State, c: nat) returns (a: Action<Item>, s': State)
    requires Inv(s) && c in s.clients && s.clients[c].InFlush() && s.nextFlush <= s.completed
    ensures FlushStep(s, c, a, s')
  {
    assert ClientOk(s, s.clients[c]);
    a := Tau;
    match s.clients[c]
    case FlCheck(id, k) => s' := s.With(c, if s.stopping then FlLoad(id, k) else FlTry(id, k));
    case FlTry(id, k) =>
      var n := |s.log.items|;
      if s.log.CanClaim() {
        a := Claimed(n, FlushRequest(id));
        s' := s.With(c, FlPublish(id, n, k))
              .(log := s.log.Claim(FlushRequest(id)),
                hist := s.hist.(places := s.hist.places[id := AtTicket(n)]));
      } else {
        a, s' := SaidFull(n), s.With(c, FlStop(id, k));
      }
    case FlPublish(id, t, k) => a, s' := Published(t), s.Resume(c, id, k).(log := s.log.Publish(t));
    case FlStop(id, k) => s' := s.With(c, if s.stopping then FlLoad(id, k) else FlTry(id, k));
    case FlLoad(id, k) => s' := s.With(c, FlRaise(id, s.completed, k));
    case FlRaise(id, seen, k) =>
      s' := if seen < id then s.With(c, FlRaise(id, s.completed, k)) else s.Resume(c, id, k);
    case FlWait(id) => s' := s.With(c, Idle);
  }

  /** A call that has not ended can always take its next step. */
  lemma CallsGoOn(s: State, c: nat) returns (a: Action<Item>, s': State)
    requires Released(s) && c in s.clients && s.clients[c] != Idle
    ensures ClientStep(s, c, a, s')
  {
    ReleasedState(s);
    if s.clients[c].InEvent() {
      a, s' := EventCanStep(s, c);
    } else {
      a, s' := FlushCanStep(s, c);
    }
  }
}
