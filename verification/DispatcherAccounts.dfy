/**
The dispatcher's books: every accepted event is in exactly one place, dropped_events_ counts what it
should, and sinks see events in ticket order with nothing but the evicted ones missing.
*/
module DispatcherAccounts {
  import opened TicketLog
  import opened Dispatcher
  import opened DispatcherInvariant

  predicate IsEvent(items: seq<Item>, t: nat) {
    t < |items| && items[t].Event?
  }

  /** Tickets of accepted events: enqueue_event has published them and returns true. */
  function Accepted(s: State): set<nat> {
    set t | t in s.log.published && IsEvent(s.log.items, t)
  }

  function Written(s: State): set<nat> {
    set t | t in s.hist.done && IsEvent(s.log.items, t)
  }

  function Lost(s: State): set<nat> {
    set t | t in s.hist.lost && IsEvent(s.log.items, t)
  }

  function WithWorker(s: State): set<nat> {
    set t | t in s.Held() && IsEvent(s.log.items, t)
  }

  function InRing(s: State): set<nat> {
    set t | t in s.log.published && t >= |s.hist.takers| && IsEvent(s.log.items, t)
  }

  function EvictedTickets(takers: seq<Taker>): set<nat> {
    set t: nat | t < |takers| && takers[t] == ByProducer
  }

  function Evicted(s: State): set<nat> {
    set t | t in EvictedTickets(s.hist.takers) && IsEvent(s.log.items, t)
  }

  lemma HandledMembers(h: History)
    requires h.lostAt <= |h.done|
    ensures forall t :: t in Handled(h) <==> t in h.done || t in h.lost
  {
    var a, b := h.done[..h.lostAt], h.done[h.lostAt..];
    assert h.done == a + b;
  }

  lemma WorkerCovers(s: State)
    requires Accounted(s)
    ensures forall t :: t in s.hist.done || t in s.hist.lost || t in s.Held() <==>
                        0 <= t < |s.hist.takers| && s.hist.takers[t] == ByWorker
  {
    OwnedByMembers(s.hist.takers);
    HandledMembers(s.hist);
    forall t ensures t in OwnedBy(s.hist.takers) <==> t in Handled(s.hist) || t in s.Held() {
    }
  }

  /** Tickets the worker took are processed, lost or held, and no ticket is two of these. */
  lemma WorkerPartition(s: State)
    requires Accounted(s)
    ensures forall t :: t in s.hist.done || t in s.hist.lost || t in s.Held() <==>
                        0 <= t < |s.hist.takers| && s.hist.takers[t] == ByWorker
    ensures forall t :: !(t in s.hist.done && t in s.hist.lost)
    ensures forall t :: !(t in s.hist.done && t in s.Held())
    ensures forall t :: !(t in s.hist.lost && t in s.Held())
  {
    WorkerCovers(s);
    OwnedByMembers(s.hist.takers);
    HandledMembers(s.hist);
    var a, b := s.hist.done[..s.hist.lostAt], s.hist.done[s.hist.lostAt..];
    assert s.hist.done == a + b;
    Disjoint(Handled(s.hist), s.Held());
    Disjoint(a, s.hist.lost + b);
    Disjoint(s.hist.lost, b);
  }

  lemma Disjoint(a: seq<nat>, b: seq<nat>)
    ensures Increasing(a + b) ==> Increasing(a) && Increasing(b) && forall t :: !(t in a && t in b)
  {
    if Increasing(a + b) {
      forall i, j | 0 <= i < |a| && 0 <= j < |b| ensures a[i] < b[j] {
        assert a[i] == (a + b)[i] && b[j] == (a + b)[|a| + j];
      }
      forall i, j | 0 <= i < j < |a| ensures a[i] < a[j] {
        assert a[i] == (a + b)[i] && a[j] == (a + b)[j];
      }
      forall i, j | 0 <= i < j < |b| ensures b[i] < b[j] {
        assert b[i] == (a + b)[|a| + i] && b[j] == (a + b)[|a| + j];
      }
    }
  }

  predicate Increasing(a: seq<nat>) {
    forall i, j :: 0 <= i < j < |a| ==> a[i] < a[j]
  }

  lemma EventsPlaced(s: State)
    requires s.log.WellFormed() && |s.hist.takers| == s.log.taken && Accounted(s)
    ensures Accepted(s) == Written(s) + Lost(s) + WithWorker(s) + InRing(s) + Evicted(s)
  {
    WorkerPartition(s);
    forall t | t in Accepted(s)
      ensures t in Written(s) + Lost(s) + WithWorker(s) + InRing(s) + Evicted(s)
    {
      assert t < |s.hist.takers| ==> s.hist.takers[t] == ByWorker || s.hist.takers[t] == ByProducer;
    }
  }

  lemma EventsApart(s: State)
    requires Accounted(s)
    ensures |Written(s) + Lost(s) + WithWorker(s) + InRing(s) + Evicted(s)| ==
            |Written(s)| + |Lost(s)| + |WithWorker(s)| + |InRing(s)| + |Evicted(s)|
    ensures Written(s) !! Lost(s) !! WithWorker(s) !! InRing(s) !! Evicted(s)
  {
    WorkerPartition(s);
    CountFive(Written(s), Lost(s), WithWorker(s), InRing(s), Evicted(s));
  }

  lemma CountFive(a: set<nat>, b: set<nat>, c: set<nat>, d: set<nat>, e: set<nat>)
    requires a !! b !! c !! d !! e
    ensures |a + b + c + d + e| == |a| + |b| + |c| + |d| + |e|
  {
  }

  /**
  Conservation: accepted events are written, held by the worker, still in the ring, evicted or (only after
  stopping_ is set) lost, each in one of these ways.
  */
  lemma EventsConserved(s: State)
    requires Inv(s)
    ensures Accepted(s) == Written(s) + Lost(s) + WithWorker(s) + InRing(s) + Evicted(s)
    ensures |Accepted(s)| == |Written(s)| + |Lost(s)| + |WithWorker(s)| + |InRing(s)| + |Evicted(s)|
    ensures !s.stopping ==> Lost(s) == {}
  {
    EventsPlaced(s);
    EventsApart(s);
  }

  // dropped_events_.

  function Owing(clients: map<nat, Client>): set<nat> {
    set c | c in clients && clients[c].OwesDrop()
  }

  /** dropped_events_ and the additions still owed are the refused dispatches and the evicted items. */
  ghost predicate DropsOk(s: State) {
    s.dropped + |Owing(s.clients)| == s.hist.rejected + |EvictedTickets(s.hist.takers)|
  }

  lemma OwingUpdate(clients: map<nat, Client>, c: nat, pc: Client)
    requires c in clients
    ensures |Owing(clients[c := pc])| ==
            |Owing(clients)| + (if pc.OwesDrop() then 1 else 0) - (if clients[c].OwesDrop() then 1 else 0)
  {
    var rest := set d | d in clients && d != c && clients[d].OwesDrop();
    OwingSplit(clients, c, rest);
    OwingSplit(clients[c := pc], c, rest);
  }

  lemma OwingSplit(clients: map<nat, Client>, c: nat, rest: set<nat>)
    requires c in clients && c !in rest
    requires forall d :: d in rest <==> d in clients && d != c && clients[d].OwesDrop()
    ensures |Owing(clients)| == |rest| + if clients[c].OwesDrop() then 1 else 0
  {
    if clients[c].OwesDrop() {
      assert Owing(clients) == rest + {c};
    } else {
      assert Owing(clients) == rest;
    }
  }

  lemma EvictedAppend(takers: seq<Taker>, who: Taker)
    ensures |EvictedTickets(takers + [who])| == |EvictedTickets(takers)| + if who == ByProducer then 1 else 0
  {
    assert EvictedTickets(takers + [who]) ==
           EvictedTickets(takers) + if who == ByProducer then {|takers|} else {};
  }

  /** The change to the books in one client step. */
  lemma EventBooks(s: State, c: nat, a: Action<Item>, s': State)
    requires c in s.clients && s.clients[c].InEvent() && EventStep(s, c, a, s')
    ensures c in s'.clients && s'.clients == s.clients[c := s'.clients[c]]
    ensures s'.hist.takers == if a.Took? then s.hist.takers + [ByProducer] else s.hist.takers
    ensures s'.dropped + (if s'.clients[c].OwesDrop() then 1 else 0) - (if s.clients[c].OwesDrop() then 1 else 0) ==
            s.dropped + (s'.hist.rejected - s.hist.rejected) + if a.Took? then 1 else 0
  {
  }

  lemma ClientDrops(s: State, c: nat, a: Action<Item>, s': State)
    requires DropsOk(s) && ClientStep(s, c, a, s') && ClientOk(s, s.clients[c])
    ensures DropsOk(s')
  {
    FrameOfClient(s, c, a, s');
    OwingUpdate(s.clients, c, s'.clients[c]);
    EvictedAppend(s.hist.takers, ByProducer);
    if s.clients[c].InEvent() {
      EventBooks(s, c, a, s');
    } else {
      FlushBooks(s, c, a, s');
    }
  }

  lemma FlushBooks(s: State, c: nat, a: Action<Item>, s': State)
    requires ClientStep(s, c, a, s') && !s.clients[c].InEvent()
    ensures !a.Took? && s'.dropped == s.dropped && s'.hist.rejected == s.hist.rejected
    ensures c in s'.clients && !s'.clients[c].OwesDrop() && !s.clients[c].OwesDrop()
  {
  }

  lemma StepDrops(s: State, s': State)
    requires Inv(s) && DropsOk(s) && Step(s, s')
    ensures DropsOk(s')
  {
    if AClientSteps(s, s') {
      var c, a :| ClientStep(s, c, a, s');
      assert ClientOk(s, s.clients[c]);
      ClientDrops(s, c, a, s');
    } else if TheWorkerSteps(s, s') {
      var a, fair :| WorkerStep(s, a, fair, s');
      if s.worker.Gathering() { GatherFrame(s, a, s'); } else { ProcessFrame(s, fair, s'); }
      EvictedAppend(s.hist.takers, ByWorker);
    } else {
      StopperFrame(s, s');
    }
  }

  ghost predicate DropsOkAt(states: seq<State>, k: nat) {
    k < |states| && DropsOk(states[k])
  }

  lemma StepsDrop(states: seq<State>)
    ensures forall k: nat ::
      (StepAt(states, k) && InvAt(states, k) && DropsOkAt(states, k)) ==> DropsOkAt(states, k + 1)
  {
    forall k: nat | StepAt(states, k) && InvAt(states, k) && DropsOkAt(states, k) ensures DropsOkAt(states, k + 1) {
      StepDrops(states[k], states[k + 1]);
    }
  }

  lemma {:induction false} RunDropsAt(states: seq<State>, n: nat)
    requires Run(states) && n < |states|
    ensures DropsOkAt(states, n)
  {
    if n > 0 {
      RunDropsAt(states, n - 1);
      RunInvUpTo(states, n - 1);
      assert StepAt(states, n - 1) && InvAt(states, n - 1);
      StepsDrop(states);
    }
  }

  /** Tickets of evicted flush requests. */
  function EvictedRequests(s: State): set<nat> {
    set t | t in EvictedTickets(s.hist.takers) && t < |s.log.items| && s.log.items[t].FlushRequest?
  }

  /**
  In every state of every run in which no client owes an addition, dropped_events_ is the number of
  refused dispatches plus evicted events plus evicted flush requests; under block and drop_newest nothing
  is evicted, and it is the number of refused dispatches.
  */
  lemma DroppedCounts(states: seq<State>, n: nat)
    requires Run(states) && n < |states|
    requires forall c :: c in states[n].clients ==> !states[n].clients[c].OwesDrop()
    ensures states[n].dropped == states[n].hist.rejected + |Evicted(states[n])| + |EvictedRequests(states[n])|
    ensures states[n].options.policy != DropOldest ==> states[n].dropped == states[n].hist.rejected
  {
    RunDropsAt(states, n);
    RunInv(states, n);
    var s := states[n];
    assert Owing(s.clients) == {};
    assert EvictedTickets(s.hist.takers) == Evicted(s) + EvictedRequests(s);
    assert Evicted(s) !! EvictedRequests(s);
    assert s.options.policy != DropOldest ==> EvictedTickets(s.hist.takers) == {};
  }

  // Order.

  /** The event tickets among `tickets`, in order. */
  function OnlyEvents(items: seq<Item>, tickets: seq<nat>): seq<nat> {
    if tickets == [] then []
    else
      var n := |tickets| - 1;
      OnlyEvents(items, tickets[..n]) + if IsEvent(items, tickets[n]) then [tickets[n]] else []
  }

  /** The event tickets below `n` that have not been evicted, in order. */
  function Survivors(items: seq<Item>, takers: seq<Taker>, n: nat): seq<nat> {
    if n == 0 then []
    else
      Survivors(items, takers, n - 1) +
      if IsEvent(items, n - 1) && (n - 1 < |takers| ==> takers[n - 1] == ByWorker) then [n - 1] else []
  }

  lemma {:induction false} OnlyEventsConcat(items: seq<Item>, a: seq<nat>, b: seq<nat>)
    ensures OnlyEvents(items, a + b) == OnlyEvents(items, a) + OnlyEvents(items, b)
  {
    if b == [] {
      assert a + b == a;
    } else {
      var n := |b| - 1;
      assert (a + b)[..|a| + n] == a + b[..n];
      OnlyEventsConcat(items, a, b[..n]);
    }
  }

  lemma {:induction false} OwnedSurvive(items: seq<Item>, takers: seq<Taker>, more: seq<Taker>)
    ensures OnlyEvents(items, OwnedBy(takers)) == Survivors(items, takers + more, |takers|)
  {
    if takers != [] {
      var n := |takers| - 1;
      OwnedSurvive(items, takers[..n], [takers[n]] + more);
      assert takers[..n] + ([takers[n]] + more) == takers + more;
      OnlyEventsConcat(items, OwnedBy(takers[..n]), if takers[n] == ByWorker then [n] else []);
    }
  }

  lemma {:induction false} SurvivorsPrefix(items: seq<Item>, takers: seq<Taker>, m: nat, n: nat)
    requires m <= n
    ensures Survivors(items, takers, m) <= Survivors(items, takers, n)
  {
    if m < n {
      SurvivorsPrefix(items, takers, m, n - 1);
    }
  }

  /**
  Before anything is lost, the events offered to each sink are a prefix of the event tickets in order with
  exactly the evicted ones removed.
  */
  lemma OfferedInOrder(s: State)
    requires Inv(s) && s.hist.lost == []
    ensures OnlyEvents(s.log.items, s.hist.done) <= Survivors(s.log.items, s.hist.takers, |s.log.items|)
  {
    HandledWithoutLoss(s.hist);
    OnlyEventsConcat(s.log.items, s.hist.done, s.Held());
    OwnedSurvive(s.log.items, s.hist.takers, []);
    assert s.hist.takers + [] == s.hist.takers;
    SurvivorsPrefix(s.log.items, s.hist.takers, |s.hist.takers|, |s.log.items|);
  }

  lemma {:induction false} NobodyEvicted(items: seq<Item>, takers: seq<Taker>, n: nat)
    requires forall t :: 0 <= t < |takers| ==> takers[t] == ByWorker
    ensures Survivors(items, takers, n) == Survivors(items, [], n)
  {
    if n > 0 {
      NobodyEvicted(items, takers, n - 1);
    }
  }

  /** Under block and drop_newest they are a prefix of all event tickets. */
  lemma OfferedWithoutEviction(s: State)
    requires Inv(s) && s.hist.lost == [] && s.options.policy != DropOldest
    ensures OnlyEvents(s.log.items, s.hist.done) <= Survivors(s.log.items, [], |s.log.items|)
    ensures Evicted(s) == {}
  {
    OfferedInOrder(s);
    NobodyEvicted(s.log.items, s.hist.takers, |s.log.items|);
  }

  /** The batch is never longer than batch_size and holds only published tickets that the worker dequeued. */
  lemma BatchWasDequeued(s: State)
    requires Inv(s)
    ensures |s.batch| <= s.options.batchSize
    ensures forall t :: t in s.Held() ==> t < |s.hist.takers| && s.hist.takers[t] == ByWorker && t in s.log.published
    ensures forall t :: t in s.hist.done ==> t < |s.hist.takers| && s.hist.takers[t] == ByWorker && t in s.log.published
  {
    WorkerPartition(s);
  }
}
