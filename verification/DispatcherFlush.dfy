/**
What `flush` means. Before stopping_ is set no flush request is lost or duplicated, and when a flush
returns, every event accepted before it began has been offered to the sinks and the sinks have been
flushed since, or the event was evicted.
*/
module DispatcherFlush {
  import opened TicketLog
  import opened Dispatcher
  import opened DispatcherInvariant

  /** Client `pc` has flush request `f` in hand: its own, or one it evicted. */
  predicate Carries(items: seq<Item>, pc: Client, f: nat) {
    match pc
    case FlCheck(id, _) => id == f
    case FlTry(id, _) => id == f
    case FlStop(id, _) => id == f
    case EvEvict(_, t) => t < |items| && items[t] == FlushRequest(f)
    case EvCount(_, t) => t < |items| && items[t] == FlushRequest(f)
    case _ => false
  }

  /** Ticket `t` holds flush request `f` and no producer has taken it out again. */
  predicate Live(items: seq<Item>, takers: seq<Taker>, t: nat, f: nat) {
    && t < |items| && items[t] == FlushRequest(f)
    && (t < |takers| ==> takers[t] == ByWorker)
  }

  /** A request in the queue was put there after its flush began. */
  ghost predicate PlaceOk(items: seq<Item>, takers: seq<Taker>, mark: seq<nat>, clients: map<nat, Client>,
                          f: nat, p: Place) {
    match p
    case AtClient(c) => c in clients && Carries(items, clients[c], f)
    case AtTicket(t) => Live(items, takers, t, f) && 1 <= f <= |mark| && mark[f - 1] <= t
  }

  /** The history of places is right, both ways. */
  ghost predicate PlacesRight(items: seq<Item>, takers: seq<Taker>, mark: seq<nat>, clients: map<nat, Client>,
                              places: map<nat, Place>) {
    && (forall f :: f in places <==> 1 <= f <= |mark|)
    && (forall f :: f in places ==> PlaceOk(items, takers, mark, clients, f, places[f]))
    && (forall c, f :: c in clients && Carries(items, clients[c], f) ==> f in places && places[f] == AtClient(c))
    && (forall t, f :: Live(items, takers, t, f) ==> f in places && places[f] == AtTicket(t))
  }

  ghost predicate PlacesOk(s: State) {
    && s.nextFlush == |s.hist.mark|
    && PlacesRight(s.log.items, s.hist.takers, s.hist.mark, s.clients, s.hist.places)
  }

  /** No request moves: events may be added at the end, the worker may take a ticket. */
  lemma NoneMoves(items: seq<Item>, takers: seq<Taker>, mark: seq<nat>, clients: map<nat, Client>,
                  places: map<nat, Place>, c: nat, pc: Client, items': seq<Item>)
    requires PlacesRight(items, takers, mark, clients, places) && c in clients
    requires items <= items' && forall t :: |items| <= t < |items'| ==> items'[t].Event?
    requires forall f :: Carries(items, clients[c], f) <==> Carries(items', pc, f)
    requires forall d :: d in clients && (clients[d].EvEvict? || clients[d].EvCount?) ==> clients[d].ticket < |items|
    ensures PlacesRight(items', takers, mark, clients[c := pc], places)
  {
    var clients' := clients[c := pc];
    forall d, f | d in clients ensures Carries(items, clients[d], f) <==> Carries(items', clients'[d], f) {
    }
    forall t: nat, f ensures Live(items, takers, t, f) <==> Live(items', takers, t, f) {
    }
    forall f | f in places ensures PlaceOk(items', takers, mark, clients', f, places[f]) {
      assert PlaceOk(items, takers, mark, clients, f, places[f]);
    }
  }

  /** A flush begins. */
  lemma RequestAppears(items: seq<Item>, takers: seq<Taker>, mark: seq<nat>, clients: map<nat, Client>,
                       places: map<nat, Place>, c: nat, pc: Client, m: nat)
    requires PlacesRight(items, takers, mark, clients, places) && c in clients
    requires forall f :: !Carries(items, clients[c], f)
    requires forall f :: Carries(items, pc, f) <==> f == |mark| + 1
    ensures PlacesRight(items, takers, mark + [m], clients[c := pc], places[|mark| + 1 := AtClient(c)])
  {
    var mark', clients', places' := mark + [m], clients[c := pc], places[|mark| + 1 := AtClient(c)];
    forall f | f in places' ensures PlaceOk(items, takers, mark', clients', f, places'[f]) {
      if f <= |mark| {
        assert PlaceOk(items, takers, mark, clients, f, places[f]);
      }
    }
    assert forall f: nat :: Carries(items, clients'[c], f) <==> f == |mark| + 1;
    forall d: nat, f: nat | d in clients' && d != c && Carries(items, clients'[d], f)
      ensures f in places' && places'[f] == AtClient(d)
    {
      assert Carries(items, clients[d], f) && f in places;
      assert f <= |mark|;
    }
  }

  /** A client puts the request it carries into the queue. */
  lemma RequestQueued(items: seq<Item>, takers: seq<Taker>, mark: seq<nat>, clients: map<nat, Client>,
                      places: map<nat, Place>, c: nat, pc: Client, f: nat)
    requires PlacesRight(items, takers, mark, clients, places) && c in clients
    requires |takers| <= |items| && forall i :: 0 <= i < |mark| ==> mark[i] <= |items|
    requires forall g :: Carries(items, clients[c], g) <==> g == f
    requires forall g :: !Carries(items + [FlushRequest(f)], pc, g)
    requires forall d :: d in clients && (clients[d].EvEvict? || clients[d].EvCount?) ==> clients[d].ticket < |items|
    ensures PlacesRight(items + [FlushRequest(f)], takers, mark, clients[c := pc], places[f := AtTicket(|items|)])
  {
    var items', clients' := items + [FlushRequest(f)], clients[c := pc];
    forall d, g | d in clients && d != c ensures Carries(items, clients[d], g) <==> Carries(items', clients'[d], g) {
    }
    forall t: nat, g ensures Live(items', takers, t, g) <==> Live(items, takers, t, g) || (t == |items| && g == f) {
    }
    var places' := places[f := AtTicket(|items|)];
    assert Carries(items, clients[c], f) && f in places && mark[f - 1] <= |items|;
    assert Live(items', takers, |items|, f);
    forall g | g in places' ensures PlaceOk(items', takers, mark, clients', g, places'[g]) {
      if g != f {
        assert PlaceOk(items, takers, mark, clients, g, places[g]);
      }
    }
    assert forall g: nat :: !Carries(items', clients'[c], g);
    forall d: nat, g: nat | d in clients' && d != c && Carries(items', clients'[d], g)
      ensures g in places' && places'[g] == AtClient(d)
    {
      assert Carries(items, clients[d], g) && places[g] == AtClient(d);
      assert Carries(items, clients[c], f) && places[f] == AtClient(c);
    }
  }

  /** A producer takes the oldest ticket. */
  lemma RequestEvicted(items: seq<Item>, takers: seq<Taker>, mark: seq<nat>, clients: map<nat, Client>,
                       places: map<nat, Place>, c: nat, pc: Client)
    requires PlacesRight(items, takers, mark, clients, places) && c in clients && |takers| < |items|
    requires forall g :: !Carries(items, clients[c], g)
    requires forall g :: Carries(items, pc, g) <==> items[|takers|] == FlushRequest(g)
    ensures PlacesRight(items, takers + [ByProducer], mark, clients[c := pc],
                        Moved(places, items[|takers|], AtClient(c)))
  {
    var takers' := takers + [ByProducer];
    forall t: nat, g ensures Live(items, takers', t, g) <==> Live(items, takers, t, g) && t != |takers| {
    }
    if items[|takers|].FlushRequest? {
      assert Live(items, takers, |takers|, items[|takers|].id);
    }
  }

  lemma WorkerTakesNone(items: seq<Item>, takers: seq<Taker>, mark: seq<nat>, clients: map<nat, Client>,
                        places: map<nat, Place>)
    requires PlacesRight(items, takers, mark, clients, places)
    ensures PlacesRight(items, takers + [ByWorker], mark, clients, places)
  {
    forall t: nat, g ensures Live(items, takers + [ByWorker], t, g) <==> Live(items, takers, t, g) {
    }
  }

  // One lemma for each kind of client step.

  ghost predicate TicketsKnown(s: State) {
    forall d :: d in s.clients && (s.clients[d].EvEvict? || s.clients[d].EvCount?) ==>
      s.clients[d].ticket < |s.log.items|
  }

  lemma StartPlaces(s: State, c: nat, s': State)
    requires PlacesOk(s) && TicketsKnown(s) && c in s.clients && s.clients[c] == Idle && StartStep(s, c, s')
    ensures PlacesOk(s')
  {
    if s'.nextFlush == s.nextFlush {
      NoneMoves(s.log.items, s.hist.takers, s.hist.mark, s.clients, s.hist.places, c, s'.clients[c], s.log.items);
    } else {
      RequestAppears(s.log.items, s.hist.takers, s.hist.mark, s.clients, s.hist.places, c, s'.clients[c],
                     |s.log.items|);
    }
  }

  lemma EvictPlaces(s: State, c: nat, e: nat, s': State)
    requires PlacesOk(s) && c in s.clients && s.clients[c] == EvPolicy(e)
    requires s.log.taken == |s.hist.takers| < |s.log.items| && s' == Evict(s, c, e)
    ensures PlacesOk(s')
  {
    RequestEvicted(s.log.items, s.hist.takers, s.hist.mark, s.clients, s.hist.places, c, s'.clients[c]);
  }

  /** Steps of enqueue_event other than the eviction. */
  lemma EventStays(s: State, c: nat, a: Action<Item>, s': State)
    requires c in s.clients && s.clients[c].InEvent() && EventStep(s, c, a, s') && !a.Took?
    ensures s'.hist.takers == s.hist.takers && s'.hist.mark == s.hist.mark && s'.hist.places == s.hist.places
    ensures s'.nextFlush == s.nextFlush && c in s'.clients && s'.clients == s.clients[c := s'.clients[c]]
  {
  }

  lemma EventMoves(s: State, c: nat, a: Action<Item>, s': State)
    requires c in s.clients && s.clients[c].InEvent() && EventStep(s, c, a, s') && ClientOk(s, s.clients[c]) && !a.Took?
    ensures s.log.items <= s'.log.items
    ensures forall t :: |s.log.items| <= t < |s'.log.items| ==> s'.log.items[t].Event?
    ensures forall f :: Carries(s.log.items, s.clients[c], f) <==> Carries(s'.log.items, s'.clients[c], f)
  {
  }

  lemma EventPlaces(s: State, c: nat, a: Action<Item>, s': State)
    requires PlacesOk(s) && TicketsKnown(s) && s.log.taken == |s.hist.takers|
    requires c in s.clients && s.clients[c].InEvent() && EventStep(s, c, a, s') && ClientOk(s, s.clients[c])
    ensures PlacesOk(s')
  {
    if a.Took? {
      EvictPlaces(s, c, s.clients[c].event, s');
    } else {
      EventStays(s, c, a, s');
      EventMoves(s, c, a, s');
      NoneMoves(s.log.items, s.hist.takers, s.hist.mark, s.clients, s.hist.places, c, s'.clients[c], s'.log.items);
    }
  }

  lemma FlushMoves(s: State, c: nat, a: Action<Item>, s': State)
    requires c in s.clients && s.clients[c].InFlush() && FlushStep(s, c, a, s') && ClientOk(s, s.clients[c])
    requires !a.Claimed? && !s.stopping
    ensures s'.hist == s.hist && s'.log.items == s.log.items
    ensures s'.nextFlush == s.nextFlush && c in s'.clients && s'.clients == s.clients[c := s'.clients[c]]
    ensures forall f :: Carries(s.log.items, s.clients[c], f) <==> Carries(s'.log.items, s'.clients[c], f)
  {
  }

  lemma FlushPlaces(s: State, c: nat, a: Action<Item>, s': State)
    requires PlacesOk(s) && TicketsKnown(s) && MarksOk(s) && |s.hist.takers| <= |s.log.items| && !s.stopping
    requires c in s.clients && s.clients[c].InFlush() && FlushStep(s, c, a, s') && ClientOk(s, s.clients[c])
    ensures PlacesOk(s')
  {
    if a.Claimed? {
      RequestQueued(s.log.items, s.hist.takers, s.hist.mark, s.clients, s.hist.places, c, s'.clients[c],
                    s.clients[c].id);
    } else {
      FlushMoves(s, c, a, s');
      NoneMoves(s.log.items, s.hist.takers, s.hist.mark, s.clients, s.hist.places, c, s'.clients[c], s'.log.items);
    }
  }

  /** Before stopping_ is set, every client step keeps each request in one place. */
  lemma ClientPlaces(s: State, c: nat, a: Action<Item>, s': State)
    requires Inv(s) && PlacesOk(s) && !s.stopping && ClientStep(s, c, a, s')
    ensures PlacesOk(s')
  {
    assert TicketsKnown(s) by {
      forall d | d in s.clients ensures ClientOk(s, s.clients[d]) {
      }
    }
    assert ClientOk(s, s.clients[c]);
    if s.clients[c].InEvent() {
      EventPlaces(s, c, a, s');
    } else if s.clients[c].InFlush() {
      FlushPlaces(s, c, a, s');
    } else {
      StartPlaces(s, c, s');
    }
  }

  lemma WorkerPlaces(s: State, a: Action<Item>, s': State)
    requires PlacesOk(s) && WorkerFrame(s, a, s') && Allowed(s.log, a, s'.log)
    ensures PlacesOk(s')
  {
    WorkerTakesNone(s.log.items, s.hist.takers, s.hist.mark, s.clients, s.hist.places);
  }

  // What has been flushed.

  /** Ticket `t` has been processed, and a flush request at or after it: the sinks were flushed after it. */
  ghost predicate FlushedAfter(s: State, t: nat) {
    exists i, j :: 0 <= i <= j < |s.hist.done| && s.hist.done[i] == t && FlushesSinks(s, s.hist.done[j])
  }

  predicate FlushesSinks(s: State, t: nat) {
    t < |s.log.items| && s.log.items[t].FlushRequest?
  }

  /** The first `m` tickets have all been taken, and those the worker took are flushed. */
  ghost predicate Settled(s: State, m: nat) {
    && m <= |s.hist.takers|
    && forall t: nat :: t < m && s.hist.takers[t] == ByWorker ==> FlushedAfter(s, t)
  }

  /** completed_flush_id_ stands only for flushes that are settled. */
  ghost predicate CompletedOk(s: State) {
    && s.completed <= s.nextFlush == |s.hist.mark|
    && (s.completed > 0 ==> Settled(s, s.hist.mark[s.completed - 1]))
    && (s.worker.LoadCompleted? || s.worker.Raise? ==>
          1 <= s.worker.id <= s.nextFlush && Settled(s, s.hist.mark[s.worker.id - 1]))
  }

  lemma SettledStays(s: State, s': State, m: nat)
    requires Settled(s, m)
    requires s.log.items <= s'.log.items && s.hist.done <= s'.hist.done && s.hist.takers <= s'.hist.takers
    ensures Settled(s', m)
  {
    forall t: nat | t < m && s'.hist.takers[t] == ByWorker ensures FlushedAfter(s', t) {
      assert s.hist.takers[t] == ByWorker && FlushedAfter(s, t);
      var i, j :| 0 <= i <= j < |s.hist.done| && s.hist.done[i] == t && FlushesSinks(s, s.hist.done[j]);
      assert s'.hist.done[i] == t && FlushesSinks(s', s'.hist.done[j]);
    }
  }

  /** A smaller mark is settled with a larger one. */
  lemma SettledBelow(s: State, m: nat, n: nat)
    requires Settled(s, n) && m <= n
    ensures Settled(s, m)
  {
  }

  /** A request at ticket `t` was put there after its flush began. */
  lemma RequestAfterMark(s: State, t: nat, id: nat)
    requires PlacesOk(s) && Live(s.log.items, s.hist.takers, t, id)
    ensures 1 <= id <= |s.hist.mark| && s.hist.mark[id - 1] <= t
  {
    assert PlaceOk(s.log.items, s.hist.takers, s.hist.mark, s.clients, id, s.hist.places[id]);
  }

  /** What the worker took before the ticket it is about to process, it has processed. */
  lemma EarlierIsDone(takers: seq<Taker>, done: seq<nat>, batch: seq<nat>, t: nat)
    ensures OwnedBy(takers) == done + batch && batch != [] && t < batch[0] && t < |takers| && takers[t] == ByWorker ==>
              t in done
  {
    var owned := OwnedBy(takers);
    OwnedByMembers(takers);
    if owned == done + batch && batch != [] && t < batch[0] && t < |takers| && takers[t] == ByWorker {
      assert owned[|done|] == batch[0] && t in owned;
      var i :| 0 <= i < |owned| && owned[i] == t;
      assert i < |done| && done[i] == t;
    }
  }

  lemma NextIsLive(s: State, id: nat)
    requires Accounted(s) && !s.stopping && s.worker == Process && s.batch != []
    requires s.batch[0] < |s.log.items| && s.log.items[s.batch[0]] == FlushRequest(id)
    ensures OwnedBy(s.hist.takers) == s.hist.done + s.batch && s.batch[0] < |s.hist.takers|
    ensures Live(s.log.items, s.hist.takers, s.batch[0], id)
  {
    HandledWithoutLoss(s.hist);
    OwnedByMembers(s.hist.takers);
    assert (s.hist.done + s.batch)[|s.hist.done|] == s.batch[0];
    assert s.batch[0] in OwnedBy(s.hist.takers);
  }

  /** When the worker reaches the request of flush `id`, everything claimed before that flush began is settled. */
  lemma RequestSettles(s: State, s': State, id: nat)
    requires Inv(s) && PlacesOk(s) && !s.stopping && s.worker == Process && s.batch != []
    requires s.batch[0] < |s.log.items| && s.log.items[s.batch[0]] == FlushRequest(id)
    requires s'.hist.done == s.hist.done + [s.batch[0]] && s'.log == s.log && s'.hist.takers == s.hist.takers
    ensures 1 <= id <= |s.hist.mark| && Settled(s', s.hist.mark[id - 1])
  {
    var t0, n := s.batch[0], |s.hist.done|;
    NextIsLive(s, id);
    RequestAfterMark(s, t0, id);
    assert s'.hist.done[n] == t0 && FlushesSinks(s', t0);
    forall t: nat | t < t0 && s'.hist.takers[t] == ByWorker ensures FlushedAfter(s', t) {
      EarlierIsDone(s.hist.takers, s.hist.done, s.batch, t);
      var i :| 0 <= i < n && s.hist.done[i] == t;
      assert s'.hist.done[i] == t;
    }
  }

  lemma ClientCompleted(s: State, c: nat, a: Action<Item>, s': State)
    requires Inv(s) && CompletedOk(s) && !s.stopping && ClientFrame(s, c, a, s') && Allowed(s.log, a, s'.log)
    ensures CompletedOk(s')
  {
    if s.completed > 0 {
      SettledStays(s, s', s.hist.mark[s.completed - 1]);
    }
    if s.worker.LoadCompleted? || s.worker.Raise? {
      SettledStays(s, s', s.hist.mark[s.worker.id - 1]);
    }
  }

  lemma GatherCompleted(s: State, a: Action<Item>, s': State)
    requires CompletedOk(s) && s.worker.Gathering() && GatherStep(s, a, s') && Allowed(s.log, a, s'.log)
    ensures CompletedOk(s')
  {
    GatherFrame(s, a, s');
    if s.completed > 0 {
      SettledStays(s, s', s.hist.mark[s.completed - 1]);
    }
    assert !s'.worker.LoadCompleted? && !s'.worker.Raise?;
  }

  lemma ProcessCompleted(s: State, fair: bool, s': State)
    requires Inv(s) && PlacesOk(s) && CompletedOk(s) && !s.stopping
    requires !s.worker.Gathering() && ProcessStep(s, fair, s')
    ensures CompletedOk(s')
  {
    ProcessFrame(s, fair, s');
    if s.completed > 0 {
      SettledStays(s, s', s.hist.mark[s.completed - 1]);
    }
    if s.worker.LoadCompleted? || s.worker.Raise? {
      SettledStays(s, s', s.hist.mark[s.worker.id - 1]);
    }
    if s.worker.Process? && s.batch != [] && s.log.items[s.batch[0]].FlushRequest? {
      RequestSettles(s, s', s.log.items[s.batch[0]].id);
    }
  }

  lemma ClientLive(s: State, c: nat, a: Action<Item>, s': State)
    requires Inv(s) && PlacesOk(s) && CompletedOk(s) && !s.stopping && ClientStep(s, c, a, s')
    ensures PlacesOk(s') && CompletedOk(s')
  {
    assert ClientOk(s, s.clients[c]);
    FrameOfClient(s, c, a, s');
    ClientEffect(s, c, a, s');
    ClientPlaces(s, c, a, s');
    ClientCompleted(s, c, a, s');
  }

  lemma WorkerLive(s: State, a: Action<Item>, fair: bool, s': State)
    requires Inv(s) && PlacesOk(s) && CompletedOk(s) && !s.stopping && WorkerStep(s, a, fair, s')
    ensures PlacesOk(s') && CompletedOk(s')
  {
    WorkerKeeps(s, a, fair, s');
    WorkerPlaces(s, a, s');
    if s.worker.Gathering() {
      GatherCompleted(s, a, s');
    } else {
      ProcessCompleted(s, fair, s');
    }
  }

  /** What holds in addition before stopping_ is set. */
  ghost predicate LiveOk(s: State) {
    !s.stopping ==> PlacesOk(s) && CompletedOk(s)
  }

  ghost predicate Good(s: State) {
    Inv(s) && LiveOk(s)
  }

  lemma ClientsLive()
    ensures forall s, s' :: Good(s) && AClientSteps(s, s') ==> LiveOk(s')
  {
    forall s, s' | Good(s) && AClientSteps(s, s') && !s'.stopping ensures PlacesOk(s') && CompletedOk(s') {
      var c, a :| ClientStep(s, c, a, s');
      FrameOfClient(s, c, a, s') by { assert ClientOk(s, s.clients[c]); }
      ClientLive(s, c, a, s');
    }
  }

  lemma TheWorkerLive()
    ensures forall s, s' :: Good(s) && TheWorkerSteps(s, s') ==> LiveOk(s')
  {
    forall s, s' | Good(s) && TheWorkerSteps(s, s') && !s'.stopping ensures PlacesOk(s') && CompletedOk(s') {
      var a, fair :| WorkerStep(s, a, fair, s');
      WorkerKeeps(s, a, fair, s');
      WorkerLive(s, a, fair, s');
    }
  }

  lemma TheStopperLive()
    ensures forall s, s' :: Good(s) && StopperStep(s, s') ==> LiveOk(s')
  {
  }

  ghost predicate GoodAt(states: seq<State>, k: nat) {
    k < |states| && Good(states[k])
  }

  lemma InitGood(s: State)
    requires Init(s)
    ensures Good(s)
  {
    InitInv(s);
    assert PlacesOk(s) && CompletedOk(s);
  }

  lemma StepLive(s: State, s': State)
    requires Step(s, s')
    ensures Good(s) ==> LiveOk(s')
  {
    ClientsLive();
    TheWorkerLive();
    TheStopperLive();
  }

  lemma StepsLive(states: seq<State>)
    ensures forall k: nat :: StepAt(states, k) && GoodAt(states, k) ==> GoodAt(states, k + 1)
  {
    forall k: nat | StepAt(states, k) && GoodAt(states, k) ensures GoodAt(states, k + 1) {
      StepKeeps(states[k], states[k + 1]);
      StepLive(states[k], states[k + 1]);
    }
  }

  lemma {:induction false} GoodSpreads(states: seq<State>, n: nat)
    requires n < |states|
    ensures GoodAt(states, 0) && (forall k: nat :: k < n ==> StepAt(states, k)) ==>
      forall k: nat :: k <= n ==> GoodAt(states, k)
  {
    if n > 0 {
      GoodSpreads(states, n - 1);
      StepsLive(states);
      if GoodAt(states, 0) && forall k: nat :: k < n ==> StepAt(states, k) {
        assert StepAt(states, n - 1);
        assert GoodAt(states, n - 1);
      }
    }
  }

  lemma RunGood(states: seq<State>, n: nat)
    requires Run(states) && n < |states|
    ensures forall k: nat :: k <= n ==> GoodAt(states, k)
  {
    InitGood(states[0]);
    GoodSpreads(states, n);
  }

  /** Event ticket `t` was evicted, or offered to every sink with the sinks flushed later. */
  ghost predicate Delivered(s: State, t: nat) {
    && t < |s.hist.takers|
    && (s.hist.takers[t] == ByProducer || FlushedAfter(s, t))
  }

  /** A flush that is let through finds every ticket below its mark delivered. */
  lemma LetThrough(s: State, f: nat, t: nat)
    requires MarksOk(s) && CompletedOk(s) && 1 <= f <= s.completed && t < s.hist.mark[f - 1]
    ensures Delivered(s, t)
  {
    SettledBelow(s, s.hist.mark[f - 1], s.hist.mark[s.completed - 1]);
  }

  /** What flush `f` does at its fetch_add is still on record later. */
  lemma MarkStays(states: seq<State>, j: nat, k: nat, f: nat)
    requires Run(states) && j < k < |states|
    requires states[j].nextFlush + 1 == states[j + 1].nextFlush == f
    ensures 1 <= f <= |states[k].hist.mark| && states[k].hist.mark[f - 1] == |states[j].log.items|
    ensures forall t :: t in states[j].log.published ==> t < |states[j].log.items|
  {
    RunInvUpTo(states, j);
    assert InvAt(states, j) && StepAt(states, j);
    StepMarks(states[j], states[j + 1]);
    RunExtends(states, j + 1, k);
  }

  /**
  The promise of `flush`. Ticket `t` was published before flush `f` did its fetch_add (step j). If the
  wait of flush `f` finds completed_flush_id_ high enough in state k, and stopping_ is not yet set, then
  in state k ticket `t` has been delivered, whichever request raised completed_flush_id_.
  */
  lemma FlushDelivers(states: seq<State>, j: nat, k: nat, f: nat, t: nat)
    requires Run(states) && j < k < |states|
    requires states[j].nextFlush + 1 == states[j + 1].nextFlush == f
    requires t in states[j].log.published
    requires !states[k].stopping && states[k].completed >= f
    ensures Delivered(states[k], t)
  {
    MarkStays(states, j, k, f);
    RunGood(states, k);
    assert GoodAt(states, k);
    LetThrough(states[k], f, t);
  }

  /** A fetch_add records how many tickets had been claimed. */
  lemma StepMarks(s: State, s': State)
    requires Inv(s) && Step(s, s')
    ensures s'.nextFlush == s.nextFlush + 1 ==>
              s'.hist.mark == s.hist.mark + [|s.log.items|] && s'.nextFlush == |s'.hist.mark|
  {
    if AClientSteps(s, s') {
      var c, a :| ClientStep(s, c, a, s');
      assert ClientOk(s, s.clients[c]);
      FrameOfClient(s, c, a, s');
    } else if TheWorkerSteps(s, s') {
      var a, fair :| WorkerStep(s, a, fair, s');
      WorkerKeeps(s, a, fair, s');
    } else {
      StopperFrame(s, s');
    }
  }

  // Where a flush request is.

  /** Request `f` is in the ring: claimed and not taken. */
  predicate InRing(s: State, f: nat, t: nat) {
    |s.hist.takers| <= t < |s.log.items| && s.log.items[t] == FlushRequest(f)
  }

  predicate WithWorker(s: State, f: nat, t: nat) {
    t in s.Held() && t < |s.log.items| && s.log.items[t] == FlushRequest(f)
  }

  predicate Processed(s: State, f: nat, t: nat) {
    t in s.hist.done && t < |s.log.items| && s.log.items[t] == FlushRequest(f)
  }

  /** Every way request `f` can be somewhere, by client or by ticket. */
  ghost predicate Somewhere(s: State, f: nat, p: Place) {
    match p
    case AtClient(c) => c in s.clients && Carries(s.log.items, s.clients[c], f)
    case AtTicket(t) => InRing(s, f, t) || WithWorker(s, f, t) || Processed(s, f, t)
  }

  /**
  Before stopping_ is set every issued flush request is in exactly one place: with its caller, with a
  producer that evicted it, in the ring, with the worker, or processed, and in one of the last three only.
  */
  lemma RequestInOnePlace(s: State, f: nat)
    requires Good(s) && !s.stopping && 1 <= f <= s.nextFlush
    ensures exists p :: Somewhere(s, f, p)
    ensures forall p, q :: Somewhere(s, f, p) && Somewhere(s, f, q) ==> p == q
    ensures forall t :: !(WithWorker(s, f, t) && Processed(s, f, t))
    ensures forall t :: !(InRing(s, f, t) && (WithWorker(s, f, t) || Processed(s, f, t)))
  {
    var owned := OwnedBy(s.hist.takers);
    OwnedByMembers(s.hist.takers);
    HandledWithoutLoss(s.hist);
    assert owned == s.hist.done + s.Held();
    forall t: nat ensures t in owned <==> t in s.hist.done || t in s.Held() {
    }
    forall t: nat ensures Somewhere(s, f, AtTicket(t)) <==> Live(s.log.items, s.hist.takers, t, f) {
      assert t in owned <==> t < |s.hist.takers| && s.hist.takers[t] == ByWorker;
    }
    assert PlaceOk(s.log.items, s.hist.takers, s.hist.mark, s.clients, f, s.hist.places[f]);
    assert Somewhere(s, f, s.hist.places[f]);
    forall p | Somewhere(s, f, p) ensures p == s.hist.places[f] {
      if p.AtTicket? {
        assert Live(s.log.items, s.hist.takers, p.ticket, f);
      }
    }
    HalvesDisjoint(s.hist.done, s.Held());
  }

  lemma HalvesDisjoint(a: seq<nat>, b: seq<nat>)
    requires forall i, j :: 0 <= i < j < |a + b| ==> (a + b)[i] < (a + b)[j]
    ensures forall t :: !(t in a && t in b)
  {
    forall i, j | 0 <= i < |a| && 0 <= j < |b| ensures a[i] < b[j] {
      assert a[i] == (a + b)[i] && b[j] == (a + b)[|a| + j];
    }
  }
}
