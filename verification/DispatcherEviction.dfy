/** A run in which drop_oldest evicts a flush request: it is counted as dropped, and put back. */
module DispatcherEviction {
  import opened TicketLog
  import opened Dispatcher
  import opened DispatcherInvariant
  import opened DispatcherAccounts

  function Start(): State {
    State(Options(DropOldest, 1, false), Empty(2), false, 0, 0, 0, map[0 := Idle, 1 := Idle], Top, [], Alive,
          History([], [], [], 0, false, 0, [], map[]))
  }

  /** Client 0 has put the request of flush 1 into the queue and waits. */
  function Waiting(): State {
    Start().(clients := map[0 := FlWait(1), 1 := Idle], nextFlush := 1,
             log := Empty(2).Claim(FlushRequest(1)).Publish(0),
             hist := Start().hist.(mark := [0], places := map[1 := AtTicket(0)]))
  }

  /** Client 1 has dispatched event 7; the queue is full. */
  function Full(): State {
    Waiting().(log := Waiting().log.Claim(Event(7)).Publish(1))
  }

  /** Client 0 waits for flush 1, client 1 is at `pc`. */
  function At(s: State, pc: Client): State {
    s.(clients := map[0 := FlWait(1), 1 := pc])
  }

  lemma AtMoves(s: State, p: Client, q: Client)
    ensures At(s, p).With(1, q) == At(s, q)
  {
    assert At(s, p).With(1, q).clients == At(s, q).clients;
  }

  function Begun(): State {
    Start().(clients := map[0 := FlCheck(1, Caller), 1 := Idle], nextFlush := 1,
             hist := Start().hist.(mark := [0], places := map[1 := AtClient(0)]))
  }

  lemma FlushBegins()
    ensures Reachable(Begun())
  {
    var s0 := Start();
    assert Run([s0]) && [s0][|[s0]| - 1] == s0;
    var s1 := s0.With(0, FlCheck(1, Caller))
                .(nextFlush := 1, hist := s0.hist.(mark := [] + [0], places := map[][1 := AtClient(0)]));
    assert StartStep(s0, 0, s1);
    ReachClient(s0, 0, Tau, s1);
    assert s1.clients == Begun().clients && s1.hist.places == Begun().hist.places;
  }

  /** The request has its ticket. */
  function HasTicket(): State {
    Begun().(clients := map[0 := FlPublish(1, 0, Caller), 1 := Idle], log := Empty(2).Claim(FlushRequest(1)),
             hist := Begun().hist.(places := map[1 := AtTicket(0)]))
  }

  lemma FlushTries()
    ensures Reachable(Begun().With(0, FlTry(1, Caller)))
  {
    FlushBegins();
    ReachClient(Begun(), 0, Tau, Begun().With(0, FlTry(1, Caller)));
  }

  lemma FlushClaims()
    ensures Reachable(HasTicket())
  {
    FlushTries();
    var s1 := Begun().With(0, FlTry(1, Caller));
    var s2 := s1.With(0, FlPublish(1, 0, Caller))
                .(log := s1.log.Claim(FlushRequest(1)), hist := s1.hist.(places := s1.hist.places[1 := AtTicket(0)]));
    ReachClient(s1, 0, Claimed(0, FlushRequest(1)), s2);
    assert s2.clients == HasTicket().clients && s2.hist.places == HasTicket().hist.places;
  }

  lemma FlushWaits()
    ensures Reachable(Waiting())
  {
    FlushClaims();
    var s0 := HasTicket();
    var s1 := s0.With(0, FlWait(1)).(log := s0.log.Publish(0));
    ReachClient(s0, 0, Published(0), s1);
    assert s1.clients == Waiting().clients;
  }

  lemma SevenTries()
    ensures Reachable(At(Waiting(), EvTry(7, true)))
  {
    FlushWaits();
    var s0 := Waiting();
    assert s0 == At(s0, Idle);
    AtMoves(s0, Idle, EvCheck(7));
    assert StartStep(s0, 1, At(s0, EvCheck(7)));
    ReachClient(s0, 1, Tau, At(s0, EvCheck(7)));
    AtMoves(s0, EvCheck(7), EvTry(7, true));
    ReachClient(At(s0, EvCheck(7)), 1, Tau, At(s0, EvTry(7, true)));
  }

  lemma SevenAccepted()
    ensures Reachable(Full())
  {
    SevenTries();
    var s0 := At(Waiting(), EvTry(7, true));
    AtMoves(Waiting(), EvTry(7, true), EvPublish(1));
    var s1 := At(Waiting(), EvPublish(1)).(log := s0.log.Claim(Event(7)));
    ReachClient(s0, 1, Claimed(1, Event(7)), s1);
    AtMoves(Waiting(), EvPublish(1), Idle);
    ReachClient(s1, 1, Published(1), Full());
  }

  lemma EightTries()
    ensures Reachable(At(Full(), EvTry(8, true)))
  {
    SevenAccepted();
    var s0 := Full();
    assert s0 == At(s0, Idle);
    AtMoves(s0, Idle, EvCheck(8));
    assert StartStep(s0, 1, At(s0, EvCheck(8)));
    ReachClient(s0, 1, Tau, At(s0, EvCheck(8)));
    AtMoves(s0, EvCheck(8), EvTry(8, true));
    ReachClient(At(s0, EvCheck(8)), 1, Tau, At(s0, EvTry(8, true)));
  }

  /** The queue says full, twice. */
  lemma EightRefused()
    ensures Reachable(At(Full(), EvStop(8)))
  {
    EightTries();
    var s0 := Full();
    AtMoves(s0, EvTry(8, true), EvTry(8, false));
    ReachClient(At(s0, EvTry(8, true)), 1, SaidFull(2), At(s0, EvTry(8, false)));
    AtMoves(s0, EvTry(8, false), EvStop(8));
    ReachClient(At(s0, EvTry(8, false)), 1, SaidFull(2), At(s0, EvStop(8)));
  }

  /** Client 1 has taken ticket 0, the flush request. */
  function Evicting(): State {
    At(Full(), EvEvict(8, 0)).(log := Full().log.Take(),
                               hist := Full().hist.(takers := [ByProducer], places := map[1 := AtClient(1)]))
  }

  lemma EightMayEvict()
    ensures Reachable(At(Full(), EvPolicy(8)))
  {
    EightRefused();
    AtMoves(Full(), EvStop(8), EvPolicy(8));
    ReachClient(At(Full(), EvStop(8)), 1, Tau, At(Full(), EvPolicy(8)));
  }

  lemma EightEvicts()
    ensures Reachable(Evicting())
  {
    EightMayEvict();
    var s0 := Full();
    var s1 := Evict(At(s0, EvPolicy(8)), 1, 8);
    ReachClient(At(s0, EvPolicy(8)), 1, Took(0), s1);
    AtMoves(s0, EvPolicy(8), EvEvict(8, 0));
    assert s1.hist.places == map[1 := AtClient(1)] && s1.hist.takers == [ByProducer];
    assert s1 == Evicting();
  }

  function PuttingBack(): State {
    At(Evicting(), FlCheck(1, Evictor(8))).(log := Evicting().log.Release(0), dropped := 1)
  }

  lemma EightCounts()
    ensures Reachable(PuttingBack())
  {
    EightEvicts();
    var s0 := Evicting();
    AtMoves(s0, EvEvict(8, 0), EvCount(8, 0));
    var s1 := At(s0, EvCount(8, 0)).(log := s0.log.Release(0));
    ReachClient(s0, 1, Returned(0, FlushRequest(1)), s1);
    AtMoves(s0, EvCount(8, 0), FlCheck(1, Evictor(8)));
    ReachClient(s1, 1, Tau, PuttingBack());
  }

  /**
  dropped_events_ is 1, although no event was dropped and no dispatch refused: what was evicted is the request of
  flush 1, which client 1 is about to put back.
  */
  lemma RequestCountsAsDropped() returns (s: State)
    ensures Reachable(s) && s.clients == map[0 := FlWait(1), 1 := FlCheck(1, Evictor(8))]
    ensures forall c :: c in s.clients ==> !s.clients[c].OwesDrop()
    ensures s.dropped == 1 && s.hist.rejected == 0 && Evicted(s) == {} && EvictedRequests(s) == {0}
  {
    EightCounts();
    s := PuttingBack();
    assert EvictedTickets(s.hist.takers) == {0};
  }
}
