/**
The dispatcher on the ring itself. Each queue call of a client or of the worker runs step by step in `RingMachine`,
interleaved with everybody else's, and the caller goes on with nothing but the ring's answer. Every run of this is a
run of `Dispatcher`, whose queue is the ticket log, with stuttering: so what is proved about the dispatcher holds of
the dispatcher over the ring.
*/
module DispatcherOverRing {
  import opened TicketLog
  import opened Dispatcher
  import opened DispatcherInvariant
  import opened DispatcherFlush
  import Ring = RingMachine
  import Runs = RingRuns
  import opened RingProgress

  /** The ring's thread 0 is the worker, thread c + 1 client c. */
  datatype Whole = Whole(ring: Ring.State<Item>, d: State)

  /** In an enqueue of `item` that has not claimed a ticket, or about to call it. */
  predicate Entering(q: Ring.Pc<Item>, item: Item) {
    q.Idle? || ((q.EnqHead? || q.EnqSequence? || q.EnqSwap?) && q.value == item)
  }

  predicate Leaving(q: Ring.Pc<Item>) {
    q.Idle? || q.DeqTail? || q.DeqSequence? || q.DeqSwap?
  }

  /** Where in the ring a client can be. */
  predicate ClientAt(policy: Policy, pc: Client, q: Ring.Pc<Item>) {
    match pc
    case EvTry(e, _) => Entering(q, Event(e))
    case FlTry(id, _) => Entering(q, FlushRequest(id))
    case EvPublish(t) => q.Writing(t)
    case FlPublish(_, t, _) => q.Writing(t)
    case EvPolicy(_) => if policy == DropOldest then Leaving(q) else q.Idle?
    case EvEvict(_, t) => q.Reading(t)
    case _ => q.Idle?
  }

  predicate WorkerAt(d: State, q: Ring.Pc<Item>) {
    match d.worker
    case Dequeue(_) => Leaving(q)
    case Fill => if |d.batch| < d.options.batchSize then Leaving(q) else q.Idle?
    case Drain => Leaving(q)
    case HandRelease(t) => q.Reading(t)
    case FillRelease(t) => q.Reading(t)
    case DrainRelease(t) => q.Reading(t)
    case _ => q.Idle?
  }

  /** The client is not in a queue call and not about to make one. */
  predicate ClientOutside(policy: Policy, pc: Client) {
    && !pc.EvTry? && !pc.FlTry? && !pc.EvPublish? && !pc.FlPublish? && !pc.EvEvict?
    && !(pc.EvPolicy? && policy == DropOldest)
  }

  predicate WorkerOutside(d: State) {
    && !d.worker.Dequeue? && !d.worker.Drain? && !(d.worker.Fill? && |d.batch| < d.options.batchSize)
    && !d.worker.HandRelease? && !d.worker.FillRelease? && !d.worker.DrainRelease?
  }

  /** The call a client makes. */
  predicate ClientCalls(policy: Policy, pc: Client, q: Ring.Pc<Item>) {
    match pc
    case EvTry(e, _) => q == Ring.EnqHead(Event(e))
    case FlTry(id, _) => q == Ring.EnqHead(FlushRequest(id))
    case EvPolicy(_) => policy == DropOldest && q == Ring.DeqTail
    case _ => false
  }

  /** What a client does with the ring's answer; claims and takes are noted in the history. */
  function ClientHears(d: State, c: nat, a: Action<Item>): State
    requires c in d.clients
  {
    match (a, d.clients[c])
    case (Claimed(t, _), EvTry(_, _)) => d.With(c, EvPublish(t))
    case (Claimed(t, _), FlTry(id, k)) =>
      d.With(c, FlPublish(id, t, k)).(hist := d.hist.(places := d.hist.places[id := AtTicket(t)]))
    case (SaidFull(_), EvTry(e, first)) => d.With(c, if first then EvTry(e, false) else EvStop(e))
    case (SaidFull(_), FlTry(id, k)) => d.With(c, FlStop(id, k))
    case (Published(_), EvPublish(_)) => d.With(c, Idle)
    case (Published(_), FlPublish(id, _, k)) => d.Resume(c, id, k)
    case (Took(t), EvPolicy(e)) =>
      d.With(c, EvEvict(e, t))
      .(hist := d.hist.(takers := d.hist.takers + [ByProducer],
                        places := if t < |d.log.items| then Moved(d.hist.places, d.log.items[t], AtClient(c))
                                  else d.hist.places))
    case (SaidEmpty(_), EvPolicy(e)) => d.With(c, EvTry(e, false))
    case (Returned(_, _), EvEvict(e, t)) => d.With(c, EvCount(e, t))
    case _ => d
  }

  function WorkerHears(d: State, a: Action<Item>): State {
    match (a, d.worker)
    case (Took(t), Dequeue(_)) =>
      d.(worker := HandRelease(t), hist := d.hist.(takers := d.hist.takers + [ByWorker]))
    case (Took(t), Fill) => d.(worker := FillRelease(t), hist := d.hist.(takers := d.hist.takers + [ByWorker]))
    case (Took(t), Drain) => d.(worker := DrainRelease(t), hist := d.hist.(takers := d.hist.takers + [ByWorker]))
    case (SaidEmpty(_), Dequeue(again)) => d.(worker := if again then Recheck else Dequeue(true))
    case (SaidEmpty(_), Fill) => d.(worker := Process)
    case (SaidEmpty(_), Drain) => d.(worker := if d.batch == [] then LastFlush else Process)
    case (Returned(_, _), HandRelease(t)) => d.(worker := Branch([t]))
    case (Returned(_, _), FillRelease(t)) => d.(worker := Fill, batch := d.batch + [t])
    case (Returned(_, _), DrainRelease(t)) =>
      d.(worker := if |d.batch| + 1 >= d.options.batchSize then Process else Drain, batch := d.batch + [t])
    case _ => d
  }

  /** A client makes a step of its queue call; when it is the deciding one, the client goes on with the answer. */
  ghost predicate ClientQueues(w: Whole, c: nat, a: Action<Item>, w': Whole) {
    && Ring.Shaped(w.ring) && c in w.d.clients && Ring.Step(w.ring, c + 1, a, w'.ring) && c + 1 in w'.ring.threads
    && (w.ring.threads[c + 1].Idle? ==>
          ClientCalls(w.d.options.policy, w.d.clients[c], w'.ring.threads[c + 1]))
    && w'.d == if a == Tau then w.d else ClientHears(w.d, c, a).(log := w'.ring.log)
  }

  ghost predicate WorkerQueues(w: Whole, a: Action<Item>, w': Whole) {
    && Ring.Shaped(w.ring) && Ring.Step(w.ring, 0, a, w'.ring) && 0 in w'.ring.threads
    && (w.ring.threads[0].Idle? ==> !WorkerOutside(w.d) && w'.ring.threads[0] == Ring.DeqTail)
    && w'.d == if a == Tau then w.d else WorkerHears(w.d, a).(log := w'.ring.log)
  }

  /** What the threads do outside the queue. */
  ghost predicate Computes(w: Whole, w': Whole) {
    && w'.ring == w.ring
    && (|| (exists c :: c in w.d.clients && ClientOutside(w.d.options.policy, w.d.clients[c]) &&
                        ClientStep(w.d, c, Tau, w'.d))
        || (WorkerOutside(w.d) && exists fair :: WorkerStep(w.d, Tau, fair, w'.d))
        || StopperStep(w.d, w'.d))
  }

  ghost predicate WholeStep(w: Whole, w': Whole) {
    || (exists c, a :: ClientQueues(w, c, a, w'))
    || (exists a :: WorkerQueues(w, a, w'))
    || Computes(w, w')
  }

  ghost predicate WholeInit(w: Whole) {
    && Ring.Init(w.ring) && w.ring.capacity >= 2 && Init(w.d) && w.d.log == w.ring.log
    && 0 in w.ring.threads && forall c :: c in w.d.clients ==> c + 1 in w.ring.threads
  }

  /** The ring and its callers agree about where each of them is. */
  ghost predicate Together(w: Whole) {
    && Ring.Inv(w.ring) && w.d.log == w.ring.log
    && 0 in w.ring.threads && WorkerAt(w.d, w.ring.threads[0])
    && ClientsAt(w.d.options.policy, w.d.clients, w.ring.threads)
  }

  ghost predicate ClientsAt(policy: Policy, clients: map<nat, Client>, threads: map<nat, Ring.Pc<Item>>) {
    forall c :: c in clients ==> c + 1 in threads && ClientAt(policy, clients[c], threads[c + 1])
  }

  // One step.

  lemma OneThread(s: Ring.State<Item>, id: nat, a: Action<Item>, s': Ring.State<Item>)
    requires Ring.Shaped(s) && Ring.Step(s, id, a, s')
    ensures id in s.threads && id in s'.threads && s'.threads == s.threads[id := s'.threads[id]]
    ensures a == Tau ==> s'.log == s.log
  {
  }

  /** The ring's answer is one that the ticket log allows, and the client's reaction its step over the log. */
  lemma ClientAnswered(w: Whole, c: nat, a: Action<Item>, w': Whole)
    requires ClientQueues(w, c, a, w') && a != Tau && w.d.log == w.ring.log && w.d.log.WellFormed()
    requires Allowed(w.ring.log, a, w'.ring.log)
    requires ClientAt(w.d.options.policy, w.d.clients[c], w.ring.threads[c + 1])
    ensures ClientStep(w.d, c, a, w'.d)
  {
  }

  lemma WorkerAnswered(w: Whole, a: Action<Item>, w': Whole)
    requires WorkerQueues(w, a, w') && a != Tau && w.d.log == w.ring.log && w.d.log.WellFormed()
    requires Allowed(w.ring.log, a, w'.ring.log) && WorkerAt(w.d, w.ring.threads[0])
    ensures WorkerStep(w.d, a, true, w'.d)
  {
  }

  lemma HearsFrame(d: State, c: nat, a: Action<Item>)
    requires c in d.clients
    ensures var d' := ClientHears(d, c, a);
            && c in d'.clients && d'.clients == d.clients[c := d'.clients[c]]
            && d'.worker == d.worker && d'.batch == d.batch && d'.options == d.options
  {
  }

  /** Inside a queue call the caller waits; */
  lemma ClientWaits(w: Whole, c: nat, w': Whole)
    requires ClientQueues(w, c, Tau, w')
    requires ClientAt(w.d.options.policy, w.d.clients[c], w.ring.threads[c + 1])
    ensures ClientAt(w.d.options.policy, w.d.clients[c], w'.ring.threads[c + 1])
  {
  }

  /** on the answer caller and ring thread move together. */
  lemma ClientFollows(w: Whole, c: nat, a: Action<Item>, w': Whole)
    requires ClientQueues(w, c, a, w') && a != Tau && c in w'.d.clients
    requires ClientAt(w.d.options.policy, w.d.clients[c], w.ring.threads[c + 1])
    ensures ClientAt(w.d.options.policy, w'.d.clients[c], w'.ring.threads[c + 1])
  {
  }

  lemma WorkerFollows(w: Whole, a: Action<Item>, w': Whole)
    requires WorkerQueues(w, a, w') && WorkerAt(w.d, w.ring.threads[0])
    ensures w'.d.clients == w.d.clients && w'.d.options == w.d.options
    ensures WorkerAt(w'.d, w'.ring.threads[0])
  {
  }

  lemma ClientsStayAt(policy: Policy, clients: map<nat, Client>, threads: map<nat, Ring.Pc<Item>>,
                      c: nat, pc: Client, q: Ring.Pc<Item>)
    requires ClientsAt(policy, clients, threads) && ClientAt(policy, pc, q)
    ensures ClientsAt(policy, clients[c := pc], threads[c + 1 := q])
  {
  }

  lemma ClientsFollow(w: Whole, c: nat, a: Action<Item>, w': Whole)
    requires ClientQueues(w, c, a, w') && 0 in w.ring.threads
    requires ClientsAt(w.d.options.policy, w.d.clients, w.ring.threads)
    ensures ClientsAt(w.d.options.policy, w'.d.clients, w'.ring.threads)
    ensures w'.d.worker == w.d.worker && w'.d.batch == w.d.batch && w'.d.options == w.d.options
    ensures 0 in w'.ring.threads && w'.ring.threads[0] == w.ring.threads[0]
  {
    OneThread(w.ring, c + 1, a, w'.ring);
    if a == Tau {
      ClientWaits(w, c, w');
      assert w.d.clients[c := w.d.clients[c]] == w.d.clients;
    } else {
      HearsFrame(w.d, c, a);
      ClientFollows(w, c, a, w');
    }
    ClientsStayAt(w.d.options.policy, w.d.clients, w.ring.threads, c, w'.d.clients[c], w'.ring.threads[c + 1]);
  }

  lemma ClientQueuesKeep(w: Whole, c: nat, a: Action<Item>, w': Whole)
    requires Together(w) && ClientQueues(w, c, a, w')
    ensures Together(w') && if a == Tau then w'.d == w.d else ClientStep(w.d, c, a, w'.d)
  {
    Ring.StepRefines(w.ring, c + 1, a, w'.ring);
    ClientsFollow(w, c, a, w');
    if a != Tau {
      ClientAnswered(w, c, a, w');
    }
  }

  lemma WorkerQueuesKeep(w: Whole, a: Action<Item>, w': Whole)
    requires Together(w) && WorkerQueues(w, a, w')
    ensures Together(w') && if a == Tau then w'.d == w.d else WorkerStep(w.d, a, true, w'.d)
  {
    Ring.StepRefines(w.ring, 0, a, w'.ring);
    OneThread(w.ring, 0, a, w'.ring);
    WorkerFollows(w, a, w');
    if a != Tau {
      WorkerAnswered(w, a, w');
    }
  }

  /** Outside the queue a client's ring thread is idle, and the client may come to a call. */
  lemma ClientComputes(s: State, c: nat, s': State, q: Ring.Pc<Item>)
    requires c in s.clients && ClientOutside(s.options.policy, s.clients[c]) && ClientStep(s, c, Tau, s')
    requires ClientAt(s.options.policy, s.clients[c], q)
    ensures s'.log == s.log && s'.options == s.options && s'.worker == s.worker && s'.batch == s.batch
    ensures c in s'.clients && s'.clients == s.clients[c := s'.clients[c]]
    ensures ClientAt(s.options.policy, s'.clients[c], q)
  {
  }

  lemma WorkerComputes(s: State, fair: bool, s': State, q: Ring.Pc<Item>)
    requires WorkerOutside(s) && WorkerStep(s, Tau, fair, s') && WorkerAt(s, q)
    ensures s'.log == s.log && s'.options == s.options && s'.clients == s.clients && WorkerAt(s', q)
  {
  }

  lemma ClientComputesKeeps(w: Whole, c: nat, w': Whole)
    requires Together(w) && w'.ring == w.ring && c in w.d.clients
    requires ClientOutside(w.d.options.policy, w.d.clients[c]) && ClientStep(w.d, c, Tau, w'.d)
    ensures Together(w')
  {
    ClientComputes(w.d, c, w'.d, w.ring.threads[c + 1]);
    ClientsStayAt(w.d.options.policy, w.d.clients, w.ring.threads, c, w'.d.clients[c], w.ring.threads[c + 1]);
    assert w.ring.threads[c + 1 := w.ring.threads[c + 1]] == w.ring.threads;
  }

  lemma ComputesKeep(w: Whole, w': Whole)
    requires Together(w) && Inv(w.d) && Computes(w, w')
    ensures Together(w') && Step(w.d, w'.d)
  {
    if c :| c in w.d.clients && ClientOutside(w.d.options.policy, w.d.clients[c]) && ClientStep(w.d, c, Tau, w'.d) {
      ClientComputesKeeps(w, c, w');
    } else if WorkerOutside(w.d) && exists fair :: WorkerStep(w.d, Tau, fair, w'.d) {
      var fair :| WorkerStep(w.d, Tau, fair, w'.d);
      WorkerComputes(w.d, fair, w'.d, w.ring.threads[0]);
      assert TheWorkerSteps(w.d, w'.d);
    } else {
      StopperFrame(w.d, w'.d);
    }
  }

  ghost predicate RingSteps(s: Ring.State<Item>, s': Ring.State<Item>) {
    Ring.Shaped(s) && exists id, a :: Ring.Step(s, id, a, s')
  }

  /** Each step is a step or nothing of the dispatcher over the log, and a step or nothing of the ring. */
  lemma WholeStepProjects(w: Whole, w': Whole)
    requires Together(w) && Inv(w.d) && WholeStep(w, w')
    ensures Together(w') && Inv(w'.d)
    ensures w'.d == w.d || Step(w.d, w'.d)
    ensures w'.ring == w.ring || RingSteps(w.ring, w'.ring)
  {
    if c, a :| ClientQueues(w, c, a, w') {
      ClientQueuesKeep(w, c, a, w');
      assert w'.d == w.d || AClientSteps(w.d, w'.d);
    } else if a :| WorkerQueues(w, a, w') {
      WorkerQueuesKeep(w, a, w');
      assert w'.d == w.d || TheWorkerSteps(w.d, w'.d);
    } else {
      ComputesKeep(w, w');
    }
    if w'.d != w.d {
      StepKeeps(w.d, w'.d);
    }
  }

  // Runs.

  ghost predicate WholeStepAt(ws: seq<Whole>, k: nat) {
    k + 1 < |ws| && WholeStep(ws[k], ws[k + 1])
  }

  ghost predicate WholeRun(ws: seq<Whole>) {
    && ws != [] && WholeInit(ws[0])
    && forall k: nat :: k < |ws| - 1 ==> WholeStepAt(ws, k)
  }

  /** `states`, each as often as it takes, are the `whole`: the state of `whole[k]` is `states[at[k]]`. */
  ghost predicate Stutters<S(!new)>(whole: seq<S>, states: seq<S>, at: seq<nat>) {
    && |at| == |whole| > 0 && at[0] == 0 && |states| == at[|at| - 1] + 1
    && (forall k :: 0 <= k < |at| ==> at[k] < |states| && states[at[k]] == whole[k])
    && (forall k :: 1 <= k < |at| ==> at[k - 1] <= at[k] <= at[k - 1] + 1)
  }

  /** The sequence goes on, with the same state or with a new one. */
  lemma StuttersOn<S(!new)>(whole: seq<S>, states: seq<S>, at: seq<nat>, s: S, again: bool)
    requires Stutters(whole, states, at) && (again ==> s == whole[|whole| - 1])
    ensures Stutters(whole + [s], if again then states else states + [s],
                     at + [if again then at[|at| - 1] else |states|])
  {
  }

  function Dispatchers(ws: seq<Whole>): seq<State> {
    seq(|ws|, k requires 0 <= k < |ws| => ws[k].d)
  }

  function Rings(ws: seq<Whole>): seq<Ring.State<Item>> {
    seq(|ws|, k requires 0 <= k < |ws| => ws[k].ring)
  }

  lemma RunLonger(states: seq<State>, s: State)
    requires Run(states) && Step(states[|states| - 1], s)
    ensures Run(states + [s])
  {
    forall k: nat | k < |states| ensures StepAt(states + [s], k) {
      if k < |states| - 1 {
        assert StepAt(states, k);
      }
    }
  }

  lemma WholeStarts(w: Whole)
    requires WholeInit(w)
    ensures Together(w) && Inv(w.d)
  {
    Ring.InitInv(w.ring);
    InitInv(w.d);
  }

  lemma {:induction false} WholeRunInv(ws: seq<Whole>, n: nat)
    requires WholeRun(ws) && n < |ws|
    ensures Together(ws[n]) && Inv(ws[n].d)
  {
    if n == 0 {
      WholeStarts(ws[0]);
    } else {
      WholeRunInv(ws, n - 1);
      assert WholeStepAt(ws, n - 1);
      WholeStepProjects(ws[n - 1], ws[n]);
    }
  }

  lemma ShorterRun(ws: seq<Whole>)
    requires WholeRun(ws) && |ws| > 1
    ensures WholeRun(ws[..|ws| - 1])
  {
    var before := ws[..|ws| - 1];
    forall k: nat | k < |before| - 1 ensures WholeStepAt(before, k) {
      assert WholeStepAt(ws, k);
    }
  }

  lemma LastStepProjects(ws: seq<Whole>)
    requires WholeRun(ws) && |ws| > 1
    ensures var w, w' := ws[|ws| - 2], ws[|ws| - 1];
            (w'.d == w.d || Step(w.d, w'.d)) && (w'.ring == w.ring || RingSteps(w.ring, w'.ring))
  {
    WholeRunInv(ws, |ws| - 2);
    assert WholeStepAt(ws, |ws| - 2);
    WholeStepProjects(ws[|ws| - 2], ws[|ws| - 1]);
  }

  /** Every run over the ring is a run of the dispatcher over the ticket log, with stuttering. */
  lemma {:induction false} RunProjects(ws: seq<Whole>) returns (states: seq<State>, at: seq<nat>)
    requires WholeRun(ws)
    ensures Run(states) && Stutters(Dispatchers(ws), states, at)
  {
    if |ws| == 1 {
      states, at := [ws[0].d], [0];
    } else {
      ShorterRun(ws);
      LastStepProjects(ws);
      states, at := RunProjects(ws[..|ws| - 1]);
      states, at := DispatcherGoesOn(ws, states, at);
    }
  }

  lemma DispatcherGoesOn(ws: seq<Whole>, states: seq<State>, at: seq<nat>) returns (states': seq<State>, at': seq<nat>)
    requires |ws| > 1 && Run(states) && Stutters(Dispatchers(ws[..|ws| - 1]), states, at)
    requires var d, d' := ws[|ws| - 2].d, ws[|ws| - 1].d; d' == d || Step(d, d')
    ensures Run(states') && Stutters(Dispatchers(ws), states', at')
  {
    var before, d, d' := Dispatchers(ws[..|ws| - 1]), ws[|ws| - 2].d, ws[|ws| - 1].d;
    StuttersOn(before, states, at, d', d' == d);
    assert Dispatchers(ws) == before + [d'];
    states', at' := states, at + [at[|at| - 1]];
    if d' != d {
      RunLonger(states, d');
      states', at' := states + [d'], at + [|states|];
    }
  }

  /** And, with the actions of its threads, a run of the ring. */
  lemma {:induction false} RingProjects(ws: seq<Whole>)
      returns (states: seq<Ring.State<Item>>, ids: seq<nat>, actions: seq<Action<Item>>, at: seq<nat>)
    requires WholeRun(ws)
    ensures Runs.Run(states, ids, actions) && Stutters(Rings(ws), states, at)
  {
    if |ws| == 1 {
      states, ids, actions, at := [ws[0].ring], [], [], [0];
    } else {
      ShorterRun(ws);
      LastStepProjects(ws);
      states, ids, actions, at := RingProjects(ws[..|ws| - 1]);
      states, ids, actions, at := RingGoesOn(ws, states, ids, actions, at);
    }
  }

  lemma RingGoesOn(ws: seq<Whole>, states: seq<Ring.State<Item>>, ids: seq<nat>, actions: seq<Action<Item>>,
                   at: seq<nat>)
      returns (states': seq<Ring.State<Item>>, ids': seq<nat>, actions': seq<Action<Item>>, at': seq<nat>)
    requires |ws| > 1 && Runs.Run(states, ids, actions) && Stutters(Rings(ws[..|ws| - 1]), states, at)
    requires var s, s' := ws[|ws| - 2].ring, ws[|ws| - 1].ring; s' == s || RingSteps(s, s')
    ensures Runs.Run(states', ids', actions') && Stutters(Rings(ws), states', at')
  {
    var before, s, s' := Rings(ws[..|ws| - 1]), ws[|ws| - 2].ring, ws[|ws| - 1].ring;
    StuttersOn(before, states, at, s', s' == s);
    assert Rings(ws) == before + [s'];
    states', ids', actions', at' := states, ids, actions, at + [at[|at| - 1]];
    if s' != s {
      var id, a :| Ring.Step(s, id, a, s');
      Runs.RunOn(states, ids, actions, id, a, s');
      states', ids', actions', at' := states + [s'], ids + [id], actions + [a], at + [|states|];
    }
  }

  lemma {:induction false} StuttersUp<S(!new)>(whole: seq<S>, states: seq<S>, at: seq<nat>, j: nat, k: nat)
    requires Stutters(whole, states, at) && j <= k < |at|
    ensures at[j] <= at[k]
    decreases k
  {
    if j < k {
      StuttersUp(whole, states, at, j, k - 1);
    }
  }

  /** The promise of `flush`, over the ring: `DispatcherFlush.FlushDelivers` carried over. */
  lemma FlushDeliversOverRing(ws: seq<Whole>, j: nat, k: nat, f: nat, t: nat)
    requires WholeRun(ws) && j < k < |ws|
    requires ws[j].d.nextFlush + 1 == ws[j + 1].d.nextFlush == f
    requires t in ws[j].ring.log.published
    requires !ws[k].d.stopping && ws[k].d.completed >= f
    ensures Delivered(ws[k].d, t)
  {
    var states, at := RunProjects(ws);
    var whole := Dispatchers(ws);
    assert whole[j] == ws[j].d && whole[j + 1] == ws[j + 1].d && whole[k] == ws[k].d;
    StuttersUp(whole, states, at, j + 1, k);
    WholeRunInv(ws, j);
    FlushDelivers(states, at[j], at[k], f, t);
  }

  // Nobody is stuck in the queue.

  /** A client that is in a queue call, or about to make one, can always take a step there. */
  lemma CallerCanStep(w: Whole, c: nat) returns (a: Action<Item>, w': Whole)
    requires Together(w) && c in w.d.clients && !ClientOutside(w.d.options.policy, w.d.clients[c])
    ensures ClientQueues(w, c, a, w')
  {
    var ring;
    if w.ring.threads[c + 1].Idle? {
      var pc := w.d.clients[c];
      a := Tau;
      ring := w.ring.With(c + 1, if pc.EvTry? then Ring.EnqHead(Event(pc.event))
                                 else if pc.FlTry? then Ring.EnqHead(FlushRequest(pc.id)) else Ring.DeqTail);
    } else {
      a, ring := ThreadCanStep(w.ring, c + 1);
      OneThread(w.ring, c + 1, a, ring);
    }
    w' := Whole(ring, if a == Tau then w.d else ClientHears(w.d, c, a).(log := ring.log));
  }

  lemma WorkerCanStep(w: Whole) returns (a: Action<Item>, w': Whole)
    requires Together(w) && !WorkerOutside(w.d)
    ensures WorkerQueues(w, a, w')
  {
    var ring;
    if w.ring.threads[0].Idle? {
      a, ring := Tau, w.ring.With(0, Ring.DeqTail);
    } else {
      a, ring := ThreadCanStep(w.ring, 0);
      OneThread(w.ring, 0, a, ring);
    }
    w' := Whole(ring, if a == Tau then w.d else WorkerHears(w.d, a).(log := ring.log));
  }
}
