/**
The asynchronous dispatcher as a step machine: any number of client threads calling `dispatch` and
`flush`, the worker thread running `worker_loop`, and one thread running `shutdown`.

The queue appears as the ticket log that the ring refines (`RingRuns.RunIsHistory`), with claim,
publish, take and release as separate steps. Every load and compare-exchange of `stopping_` and
`completed_flush_id_`, and every `fetch_add`, is a step; waits may return at any moment.
`compare_exchange_weak` may fail for no reason.
*/
module Dispatcher {
  import opened TicketLog

  const MAX_ID: nat := 0xFFFF_FFFF_FFFF_FFFF

  datatype Policy = Block | DropNewest | DropOldest

  /** What travels through the queue. The dispatcher never looks inside an event; a number names it. */
  datatype Item = Event(name: nat) | FlushRequest(id: nat)

  /** Who called enqueue_flush_request: `flush`, or a producer putting back a request it evicted. */
  datatype Continuation = Caller | Evictor(event: nat)

  /** Where a client thread is. The numbers are lines of async_dispatcher.cpp. */
  datatype Client =
    | Idle
    | EvCheck(event: nat)                           // 110
    | EvTry(event: nat, first: bool)                // 115, 128
    | EvPublish(ticket: nat)                        // claimed, not yet published
    | EvStop(event: nat)                            // 138
    | EvPolicy(event: nat)                          // 143
    | EvDrop                                        // refused: about to add 1 to dropped_events_
    | EvEvict(event: nat, ticket: nat)              // 149: took a ticket, about to release its slot
    | EvCount(event: nat, ticket: nat)              // 150
    | FlCheck(id: nat, k: Continuation)             // 177
    | FlTry(id: nat, k: Continuation)               // 190
    | FlPublish(id: nat, ticket: nat, k: Continuation)
    | FlStop(id: nat, k: Continuation)              // 200
    | FlLoad(id: nat, k: Continuation)              // 178, 201
    | FlRaise(id: nat, seen: nat, k: Continuation)  // 179, 202
    | FlWait(id: nat)                               // 36
  {
    predicate Publishing(t: nat) {
      (EvPublish? || FlPublish?) && ticket == t
    }

    predicate InEvent() {
      EvCheck? || EvTry? || EvPublish? || EvStop? || EvPolicy? || EvDrop? || EvEvict? || EvCount?
    }

    predicate InFlush() {
      FlCheck? || FlTry? || FlPublish? || FlStop? || FlLoad? || FlRaise? || FlWait?
    }

    predicate Releasing(t: nat) {
      EvEvict? && ticket == t
    }

    predicate Owns() {
      EvPublish? || FlPublish? || EvEvict?
    }

    /** An addition to dropped_events_ is decided but not yet made. */
    predicate OwesDrop() {
      EvDrop? || EvEvict? || EvCount?
    }
  }

  /** Where the worker is. */
  datatype Worker =
    | Top                               // 57: about to load stopping_
    | Dequeue(again: bool)              // 57, 59
    | HandRelease(ticket: nat)          // took a ticket into `item`, about to release its slot
    | Recheck                           // 63
    | Branch(hand: seq<nat>)            // 71: `item` holds a dequeued ticket, or none
    | Fill                              // 81
    | FillRelease(ticket: nat)
    | Drain                             // 72
    | DrainRelease(ticket: nat)
    | Process                           // 91
    | LoadCompleted(id: nat)            // 97
    | Raise(id: nat, seen: nat)         // 98
    | LastFlush                         // 106
    | Finished
  {
    predicate Gathering() {
      Top? || Dequeue? || HandRelease? || Recheck? || Branch? || Fill? || FillRelease? || Drain? || DrainRelease?
    }
  }

  datatype Stopper = Alive | StopLoad | StopRaise(seen: nat) | Joining | Joined

  datatype Taker = ByWorker | ByProducer

  /** Where a flush request is: carried by a client, or in the item of a ticket. */
  datatype Place = AtClient(client: nat) | AtTicket(ticket: nat)

  datatype Options = Options(policy: Policy, batchSize: nat, timeouts: bool /* block_retry_timeout > 0 */)

  /** What has happened so far; no step looks at it. */
  datatype History = History(
    takers: seq<Taker>,         // who took each ticket
    done: seq<nat>,             // tickets processed by the worker: events offered to every sink, requests flushing them
    lost: seq<nat>,             // tickets dequeued by the worker and thrown away at line 71
    lostAt: nat,                // how much was processed before that
    finalFlush: bool,           // line 106 has run
    rejected: nat,              // dispatches that decided to return false
    mark: seq<nat>,             // for flush id f, mark[f - 1] tickets had been claimed at its fetch_add
    places: map<nat, Place>     // where each flush request is
  )

  datatype State = State(
    options: Options,
    log: Log<Item>,
    stopping: bool,
    completed: nat,
    nextFlush: nat,
    dropped: nat,
    clients: map<nat, Client>,
    worker: Worker,
    batch: seq<nat>,            // tickets of the batch not yet processed
    stopper: Stopper,
    hist: History
  ) {
    function With(c: nat, pc: Client): State {
      this.(clients := clients[c := pc])
    }

    function Resume(c: nat, id: nat, k: Continuation): State {
      With(c, if k.Caller? then FlWait(id) else EvTry(k.event, false))
    }

    /** Tickets the worker has dequeued and neither processed nor lost. */
    function Held(): seq<nat> {
      match worker
      case HandRelease(t) => [t]
      case Branch(hand) => hand
      case FillRelease(t) => batch + [t]
      case DrainRelease(t) => batch + [t]
      case _ => batch
    }
  }

  ghost predicate Init(s: State) {
    && s.options.batchSize > 0
    && s.log.capacity >= 2 && s.log == Empty(s.log.capacity)
    && !s.stopping && s.completed == s.nextFlush == s.dropped == 0
    && (forall c :: c in s.clients ==> s.clients[c] == Idle)
    && s.worker == Top && s.stopper == Alive && s.batch == []
    && s.hist == History([], [], [], 0, false, 0, [], map[])
  }

  /** Refuse the event: the decision, before the addition to dropped_events_. */
  function Refuse(s: State, c: nat): State {
    s.With(c, EvDrop).(hist := s.hist.(rejected := s.hist.rejected + 1))
  }

  function Moved(places: map<nat, Place>, item: Item, p: Place): map<nat, Place> {
    match item
    case Event(_) => places
    case FlushRequest(id) => places[id := p]
  }

  /** A call begins: `dispatch`, or `flush` with its fetch_add. */
  ghost predicate StartStep(s: State, c: nat, s': State) {
    || (exists e :: s' == s.With(c, EvCheck(e)))
    || (s.nextFlush < MAX_ID &&
        s' == s.With(c, FlCheck(s.nextFlush + 1, Caller))
              .(nextFlush := s.nextFlush + 1,
                hist := s.hist.(mark := s.hist.mark + [|s.log.items|],
                                places := s.hist.places[s.nextFlush + 1 := AtClient(c)])))
  }

  /** Line 149 takes the oldest ticket. */
  function Evict(s: State, c: nat, e: nat): State
    requires s.log.taken < |s.log.items|
  {
    s.With(c, EvEvict(e, s.log.taken))
    .(log := s.log.Take(),
      hist := s.hist.(takers := s.hist.takers + [ByProducer],
                      places := Moved(s.hist.places, s.log.items[s.log.taken], AtClient(c))))
  }

  /** Lines 143-171: what the overflow policy does when the queue said full. */
  ghost predicate PolicyStep(s: State, c: nat, e: nat, a: Action<Item>, s': State) {
    match s.options.policy
    case DropNewest => a == Tau && s' == Refuse(s, c)
    case Block =>
      a == Tau && (s' == s.With(c, EvTry(e, false)) || (s.options.timeouts && s' == Refuse(s, c)))
    case DropOldest =>
      if s.log.CanTake() then
        s.log.taken < |s.log.items| && a == Took(s.log.taken) && s' == Evict(s, c, e)
      else
        a == SaidEmpty(s.log.taken) && s' == s.With(c, EvTry(e, false))
  }

  /** A step of enqueue_event. */
  ghost predicate EventStep(s: State, c: nat, a: Action<Item>, s': State)
    requires c in s.clients && s.clients[c].InEvent()
  {
    match s.clients[c]
    case EvCheck(e) =>
      a == Tau && s' == if s.stopping then Refuse(s, c) else s.With(c, EvTry(e, true))
    case EvTry(e, first) =>
      if s.log.CanClaim() then
        && a == Claimed(|s.log.items|, Event(e))
        && s' == s.With(c, EvPublish(|s.log.items|)).(log := s.log.Claim(Event(e)))
      else
        && a == SaidFull(|s.log.items|)
        && s' == s.With(c, if first then EvTry(e, false) else EvStop(e))
    case EvPublish(t) =>
      a == Published(t) && s' == s.With(c, Idle).(log := s.log.Publish(t))
    case EvStop(e) =>
      a == Tau && s' == if s.stopping then Refuse(s, c) else s.With(c, EvPolicy(e))
    case EvPolicy(e) =>
      PolicyStep(s, c, e, a, s')
    case EvDrop =>
      a == Tau && s' == s.With(c, Idle).(dropped := s.dropped + 1)
    case EvEvict(e, t) =>
      && t < |s.log.items| && a == Returned(t, s.log.items[t])
      && s' == s.With(c, EvCount(e, t)).(log := s.log.Release(t))
    case EvCount(e, t) =>
      && t < |s.log.items| && a == Tau
      && s' == s.With(c, if s.log.items[t].Event? then EvTry(e, false) else FlCheck(s.log.items[t].id, Evictor(e)))
               .(dropped := s.dropped + 1)
  }

  /** A step of enqueue_flush_request, or of the wait in `flush`. */
  ghost predicate FlushStep(s: State, c: nat, a: Action<Item>, s': State)
    requires c in s.clients && s.clients[c].InFlush()
  {
    match s.clients[c]
    case FlCheck(id, k) =>
      a == Tau && s' == s.With(c, if s.stopping then FlLoad(id, k) else FlTry(id, k))
    case FlTry(id, k) =>
      if s.log.CanClaim() then
        && a == Claimed(|s.log.items|, FlushRequest(id))
        && s' == s.With(c, FlPublish(id, |s.log.items|, k))
                 .(log := s.log.Claim(FlushRequest(id)),
                   hist := s.hist.(places := s.hist.places[id := AtTicket(|s.log.items|)]))
      else
        a == SaidFull(|s.log.items|) && s' == s.With(c, FlStop(id, k))
    case FlPublish(id, t, k) =>
      a == Published(t) && s' == s.Resume(c, id, k).(log := s.log.Publish(t))
    case FlStop(id, k) =>
      a == Tau && s' == s.With(c, if s.stopping then FlLoad(id, k) else FlTry(id, k))
    case FlLoad(id, k) =>
      a == Tau && s' == s.With(c, FlRaise(id, s.completed, k))
    case FlRaise(id, seen, k) =>
      && a == Tau
      && if seen < id then
           || (s.completed == seen && s' == s.Resume(c, id, k).(completed := id))
           || s' == s.With(c, FlRaise(id, s.completed, k))
         else
           s' == s.Resume(c, id, k)
    case FlWait(id) =>
      a == Tau && s.completed >= id && s' == s.With(c, Idle)
  }

  /** One step of client `c`; `a` is what it does to the queue. */
  ghost predicate ClientStep(s: State, c: nat, a: Action<Item>, s': State) {
    && c in s.clients
    && if s.clients[c].InEvent() then EventStep(s, c, a, s')
       else if s.clients[c].InFlush() then FlushStep(s, c, a, s')
       else a == Tau && StartStep(s, c, s')
  }

  /** The worker takes the oldest ticket. */
  function WorkerTakes(s: State, w: Worker): State {
    s.(worker := w, log := s.log.Take(), hist := s.hist.(takers := s.hist.takers + [ByWorker]))
  }

  /** Line 71: with stopping_ set, whatever is in `item` is overwritten or discarded. */
  function Discard(s: State, hand: seq<nat>): State {
    s.(worker := Drain, batch := [],
       hist := s.hist.(lost := s.hist.lost + hand, lostAt := if hand == [] then s.hist.lostAt else |s.hist.done|))
  }

  /** The worker collects a batch, lines 54-84. */
  ghost predicate GatherStep(s: State, a: Action<Item>, s': State)
    requires s.worker.Gathering()
  {
    match s.worker
    case Top =>
      a == Tau && s' == s.(worker := if s.stopping then Branch([]) else Dequeue(false))
    case Dequeue(again) =>
      if s.log.CanTake() then a == Took(s.log.taken) && s' == WorkerTakes(s, HandRelease(s.log.taken))
      else a == SaidEmpty(s.log.taken) && s' == s.(worker := if again then Recheck else Dequeue(true))
    case HandRelease(t) =>
      && t < |s.log.items| && a == Returned(t, s.log.items[t])
      && s' == s.(worker := Branch([t]), log := s.log.Release(t))
    case Recheck =>
      a == Tau && s' == s.(worker := if s.stopping then Branch([]) else Top)
    case Branch(hand) =>
      a == Tau && s' == if s.stopping then Discard(s, hand) else s.(worker := Fill, batch := hand)
    case Fill =>
      if |s.batch| >= s.options.batchSize then a == Tau && s' == s.(worker := Process)
      else if s.log.CanTake() then a == Took(s.log.taken) && s' == WorkerTakes(s, FillRelease(s.log.taken))
      else a == SaidEmpty(s.log.taken) && s' == s.(worker := Process)
    case FillRelease(t) =>
      && t < |s.log.items| && a == Returned(t, s.log.items[t])
      && s' == s.(worker := Fill, batch := s.batch + [t], log := s.log.Release(t))
    case Drain =>
      if s.log.CanTake() then a == Took(s.log.taken) && s' == WorkerTakes(s, DrainRelease(s.log.taken))
      else a == SaidEmpty(s.log.taken) && s' == s.(worker := if s.batch == [] then LastFlush else Process)
    case DrainRelease(t) =>
      && t < |s.log.items| && a == Returned(t, s.log.items[t])
      && s' == s.(worker := if |s.batch| + 1 >= s.options.batchSize then Process else Drain,
                  batch := s.batch + [t], log := s.log.Release(t))
  }

  /**
  The worker goes through a batch, lines 91-104, and ends, line 106. `fair` is false only for a
  compare-exchange that fails although it found the expected value.
  */
  ghost predicate ProcessStep(s: State, fair: bool, s': State)
    requires !s.worker.Gathering()
  {
    match s.worker
    case Process =>
      && fair
      && if s.batch == [] then s' == s.(worker := Top)
         else
           && s.batch[0] < |s.log.items|
           && s' == s.(batch := s.batch[1..], hist := s.hist.(done := s.hist.done + [s.batch[0]]),
                       worker := match s.log.items[s.batch[0]]
                                 case Event(_) => Process
                                 case FlushRequest(id) => LoadCompleted(id))
    case LoadCompleted(id) =>
      fair && s' == s.(worker := Raise(id, s.completed))
    case Raise(id, seen) =>
      if seen < id then
        || (s.completed == seen && fair && s' == s.(worker := Process, completed := id))
        || (fair == (s.completed != seen) && s' == s.(worker := Raise(id, s.completed)))
      else
        fair && s' == s.(worker := Process)
    case LastFlush =>
      fair && s' == s.(worker := Finished, hist := s.hist.(finalFlush := true))
    case Finished => false
  }

  ghost predicate WorkerStep(s: State, a: Action<Item>, fair: bool, s': State) {
    if s.worker.Gathering() then fair && GatherStep(s, a, s') else a == Tau && ProcessStep(s, fair, s')
  }

  /** One step of `shutdown`. */
  ghost predicate StopperStep(s: State, s': State) {
    match s.stopper
    case Alive => s' == s.(stopping := true, stopper := StopLoad)
    case StopLoad => s' == s.(stopper := StopRaise(s.completed))
    case StopRaise(seen) =>
      || (s.completed == seen && s' == s.(completed := MAX_ID, stopper := Joining))
      || s' == s.(stopper := StopRaise(s.completed))
    case Joining => s.worker == Finished && s' == s.(stopper := Joined)
    case Joined => false
  }

  ghost predicate AClientSteps(s: State, s': State) {
    exists c, a :: ClientStep(s, c, a, s')
  }

  ghost predicate TheWorkerSteps(s: State, s': State) {
    exists a, fair :: WorkerStep(s, a, fair, s')
  }

  ghost predicate Step(s: State, s': State) {
    AClientSteps(s, s') || TheWorkerSteps(s, s') || StopperStep(s, s')
  }
}
