/**
When the dispatcher's queue says full although it has room: exactly while a thread that has taken the ticket one lap
back has not given its slot back. Under drop_newest such a refusal loses the event; a run shows it.
*/
module DispatcherRefusal {
  import opened TicketLog
  import opened Dispatcher
  import opened DispatcherInvariant

  predicate WorkerReleases(w: Worker, t: nat) {
    (w.HandRelease? || w.FillRelease? || w.DrainRelease?) && w.ticket == t
  }

  /** A thread has taken ticket `t` and is about to release its slot. */
  ghost predicate HeldForRelease(s: State, t: nat) {
    WorkerReleases(s.worker, t) || exists c :: c in s.clients && s.clients[c].Releasing(t)
  }

  /** Every taken ticket that is not released has such a thread. */
  ghost predicate Releasers(s: State) {
    forall t: nat :: t < s.log.taken && t !in s.log.released ==> HeldForRelease(s, t)
  }

  lemma ClientReleasers(s: State, c: nat, a: Action<Item>, s': State)
    requires Releasers(s) && Allowed(s.log, a, s'.log) && s'.worker == s.worker
    requires c in s.clients && c in s'.clients && s'.clients == s.clients[c := s'.clients[c]]
    requires ClientOwns(s.clients[c], a, s'.clients[c])
    ensures Releasers(s')
  {
    forall t: nat | t < s'.log.taken && t !in s'.log.released ensures HeldForRelease(s', t) {
      if a.Took? && a.ticket == t {
        assert s'.clients[c].Releasing(t);
      } else if !WorkerReleases(s.worker, t) {
        var d :| d in s.clients && s.clients[d].Releasing(t);
        assert s'.clients[d].Releasing(t);
      }
    }
  }

  /** Which ticket the worker is about to release, before and after its step. */
  lemma WorkerOwns(s: State, a: Action<Item>, fair: bool, s': State)
    requires WorkerStep(s, a, fair, s')
    ensures a.Took? ==> WorkerReleases(s'.worker, a.ticket)
    ensures forall t: nat :: WorkerReleases(s.worker, t) ==> a.Returned? && a.ticket == t
  {
  }

  lemma WorkerReleasers(s: State, a: Action<Item>, fair: bool, s': State)
    requires Releasers(s) && WorkerStep(s, a, fair, s') && Allowed(s.log, a, s'.log) && s'.clients == s.clients
    ensures Releasers(s')
  {
    WorkerOwns(s, a, fair, s');
    forall t: nat | t < s'.log.taken && t !in s'.log.released ensures HeldForRelease(s', t) {
      if !(a.Took? && a.ticket == t) {
        assert HeldForRelease(s, t);
      }
    }
  }

  lemma StepReleasers(s: State, s': State)
    requires Inv(s) && Releasers(s) && Step(s, s')
    ensures Releasers(s')
  {
    if AClientSteps(s, s') {
      var c, a :| ClientStep(s, c, a, s');
      assert ClientOk(s, s.clients[c]);
      FrameOfClient(s, c, a, s');
      ClientEffect(s, c, a, s');
      ClientReleasers(s, c, a, s');
    } else if TheWorkerSteps(s, s') {
      var a, fair :| WorkerStep(s, a, fair, s');
      WorkerKeeps(s, a, fair, s');
      WorkerReleasers(s, a, fair, s');
    } else {
      StopperFrame(s, s');
      assert forall t: nat :: HeldForRelease(s, t) ==> HeldForRelease(s', t);
    }
  }

  lemma {:induction false} RunReleasers(states: seq<State>, n: nat)
    requires Run(states) && n < |states|
    ensures Releasers(states[n])
  {
    if n > 0 {
      RunReleasers(states, n - 1);
      RunInv(states, n - 1);
      assert StepAt(states, n - 1);
      StepReleasers(states[n - 1], states[n]);
    }
  }

  lemma HolderIs(s: State, t: nat)
    requires Inv(s) && Releasers(s) && t < s.log.taken
    ensures HeldForRelease(s, t) <==> t !in s.log.released
    ensures s.options.policy != DropOldest ==> (WorkerReleases(s.worker, t) <==> t !in s.log.released)
  {
    forall c | c in s.clients && s.clients[c].Releasing(t)
      ensures t !in s.log.released && s.options.policy == DropOldest
    {
      assert ClientOk(s, s.clients[c]);
    }
  }

  /**
  With fewer than `capacity` tickets queued the queue still says full if and only if the ticket one lap before the
  next has been taken and is about to be released: by the worker, or under drop_oldest by the worker or a producer.
  */
  lemma RefusesWithRoomIff(s: State)
    requires Reachable(s)
    ensures var n := |s.log.items|;
            && (!s.log.CanClaim() && n - s.log.taken < s.log.capacity <==>
                s.log.capacity <= n < s.log.taken + s.log.capacity && HeldForRelease(s, n - s.log.capacity))
            && (s.options.policy != DropOldest && s.log.capacity <= n ==>
                  (HeldForRelease(s, n - s.log.capacity) <==> WorkerReleases(s.worker, n - s.log.capacity)))
  {
    var n := |s.log.items|;
    HoldersAre(s, if n < s.log.capacity then 0 else n - s.log.capacity);
  }

  lemma HoldersAre(s: State, t: nat)
    requires Reachable(s)
    ensures s.log.WellFormed()
    ensures HeldForRelease(s, t) <==> t < s.log.taken && t !in s.log.released
    ensures s.options.policy != DropOldest ==> (HeldForRelease(s, t) <==> WorkerReleases(s.worker, t))
  {
    ReachedReleasers(s);
    ReachedInv(s);
    if t < s.log.taken {
      HolderIs(s, t);
    } else {
      NobodyReleases(s, t);
    }
  }

  lemma ReachedReleasers(s: State)
    requires Reachable(s)
    ensures Releasers(s)
  {
    var states :| Run(states) && states[|states| - 1] == s;
    RunReleasers(states, |states| - 1);
  }

  lemma NobodyReleases(s: State, t: nat)
    requires Inv(s) && t >= s.log.taken
    ensures !HeldForRelease(s, t) && !WorkerReleases(s.worker, t)
  {
    OwnedByMembers(s.hist.takers);
    assert forall u :: u in s.Held() ==> u in OwnedBy(s.hist.takers);
    assert WorkerReleases(s.worker, t) ==> t in s.Held();
    forall c | c in s.clients ensures !s.clients[c].Releasing(t) {
      assert ClientOk(s, s.clients[c]);
    }
  }

  // A run in which drop_newest refuses an event with room in the queue.

  function Start(): State {
    State(Options(DropNewest, 1, false), Empty(2), false, 0, 0, 0, map[0 := Idle], Top, [], Alive,
          History([], [], [], 0, false, 0, [], map[]))
  }

  function At(s: State, pc: Client): State {
    s.(clients := map[0 := pc])
  }

  lemma AtMoves(s: State, p: Client, q: Client)
    ensures At(s, p).With(0, q) == At(s, q)
  {
    assert At(s, p).With(0, q).clients == At(s, q).clients;
  }

  /** The call of `dispatch` with event `e` comes to its first try. */
  lemma Tries(s: State, e: nat)
    requires Reachable(s) && s == At(s, Idle) && !s.stopping
    ensures Reachable(At(s, EvTry(e, true)))
  {
    AtMoves(s, Idle, EvCheck(e));
    assert StartStep(s, 0, At(s, EvCheck(e)));
    ReachClient(s, 0, Tau, At(s, EvCheck(e)));
    AtMoves(s, EvCheck(e), EvTry(e, true));
    ReachClient(At(s, EvCheck(e)), 0, Tau, At(s, EvTry(e, true)));
  }

  /** And is accepted. */
  lemma Accepts(s: State, e: nat)
    requires Reachable(s) && s == At(s, Idle) && !s.stopping && s.log.CanClaim()
    ensures Reachable(s.(log := s.log.Claim(Event(e)).Publish(|s.log.items|)))
  {
    Tries(s, e);
    var n := |s.log.items|;
    AtMoves(s, EvTry(e, true), EvPublish(n));
    var s1 := At(s, EvPublish(n)).(log := s.log.Claim(Event(e)));
    ReachClient(At(s, EvTry(e, true)), 0, Claimed(n, Event(e)), s1);
    AtMoves(s, EvPublish(n), Idle);
    ReachClient(s1, 0, Published(n), s.(log := s.log.Claim(Event(e)).Publish(n)));
  }

  function TwoAccepted(): State {
    Start().(log := Empty(2).Claim(Event(7)).Publish(0).Claim(Event(8)).Publish(1))
  }

  lemma ReachTwoAccepted()
    ensures Reachable(TwoAccepted())
  {
    var s0 := Start();
    assert Run([s0]) && [s0][|[s0]| - 1] == s0;
    Accepts(s0, 7);
    Accepts(s0.(log := Empty(2).Claim(Event(7)).Publish(0)), 8);
  }

  /** The worker has taken event 7 and not released its slot. */
  function OneTaken(): State {
    WorkerTakes(TwoAccepted(), HandRelease(0))
  }

  lemma ReachOneTaken()
    ensures Reachable(OneTaken())
  {
    ReachTwoAccepted();
    var s1 := TwoAccepted().(worker := Dequeue(false));
    assert WorkerStep(TwoAccepted(), Tau, true, s1);
    ReachStep(TwoAccepted(), s1);
    assert WorkerStep(s1, Took(0), true, OneTaken());
    ReachStep(s1, OneTaken());
  }

  ghost predicate HasRoom(s: State) {
    |s.log.items| - s.log.taken == 1 < s.log.capacity == 2 && s.worker == HandRelease(0) && !s.stopping
  }

  lemma OneTakenHasRoom()
    ensures HasRoom(OneTaken()) && !OneTaken().log.CanClaim() && |OneTaken().log.items| == 2
  {
  }

  lemma SaysFull(first: bool)
    ensures ClientStep(At(OneTaken(), EvTry(9, first)), 0, SaidFull(2),
                       At(OneTaken(), if first then EvTry(9, false) else EvStop(9)))
  {
    OneTakenHasRoom();
    AtMoves(OneTaken(), EvTry(9, first), if first then EvTry(9, false) else EvStop(9));
  }

  lemma ThenRefuses()
    ensures ClientStep(At(OneTaken(), EvStop(9)), 0, Tau, At(OneTaken(), EvPolicy(9)))
    ensures ClientStep(At(OneTaken(), EvPolicy(9)), 0, Tau, Refuse(At(OneTaken(), EvPolicy(9)), 0))
  {
    AtMoves(OneTaken(), EvStop(9), EvPolicy(9));
  }

  /**
  Client 0 dispatches event 9 while one event is queued in two slots and the worker is between taking event 7 and
  releasing its slot. Both tries say full, and drop_newest refuses.
  */
  lemma DropsWithRoom() returns (s: State)
    ensures HasRoom(s) && s.options.policy == DropNewest && Reachable(At(s, EvTry(9, true)))
    ensures ClientStep(At(s, EvTry(9, true)), 0, SaidFull(2), At(s, EvTry(9, false)))
    ensures ClientStep(At(s, EvTry(9, false)), 0, SaidFull(2), At(s, EvStop(9)))
    ensures ClientStep(At(s, EvStop(9)), 0, Tau, At(s, EvPolicy(9)))
    ensures ClientStep(At(s, EvPolicy(9)), 0, Tau, Refuse(At(s, EvPolicy(9)), 0))
  {
    ReachOneTaken();
    s := OneTaken();
    Tries(s, 9);
    OneTakenHasRoom();
    SaysFull(true);
    SaysFull(false);
    ThenRefuses();
  }
}
