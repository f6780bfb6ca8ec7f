/**
What becomes of a call of `dispatch`: every one is still running, accepted with its own event, or refused; and when
it may be refused.
*/
module DispatcherCalls {
  import opened TicketLog
  import opened Dispatcher
  import opened DispatcherInvariant
  import opened DispatcherAccounts

  // When a dispatch may be refused.

  /** Policies that refuse a dispatch without a shutdown. */
  predicate MayRefuse(options: Options) {
    options.policy == DropNewest || (options.policy == Block && options.timeouts)
  }

  /** Client `c` is refused: it found stopping_ set, or it has come past a full queue with such a policy. */
  ghost predicate Refuses(s: State, c: nat, s': State) {
    && c in s.clients && c in s'.clients && s'.clients[c] == EvDrop && s'.hist.rejected == s.hist.rejected + 1
    && if s.clients[c].EvPolicy? then MayRefuse(s.options)
       else (s.clients[c].EvCheck? || s.clients[c].EvStop?) && s.stopping
  }

  lemma EventRefuses(s: State, c: nat, a: Action<Item>, s': State)
    requires c in s.clients && s.clients[c].InEvent() && EventStep(s, c, a, s')
    ensures s'.hist.rejected == s.hist.rejected || Refuses(s, c, s')
  {
  }

  lemma ClientRefuses(s: State, c: nat, a: Action<Item>, s': State)
    requires ClientStep(s, c, a, s')
    ensures s'.hist.rejected == s.hist.rejected || Refuses(s, c, s')
  {
    if s.clients[c].InEvent() {
      EventRefuses(s, c, a, s');
    } else {
      FlushBooks(s, c, a, s');
    }
  }

  /** Nothing else counts as a refusal. */
  lemma StepRefuses(s: State, s': State)
    requires Inv(s) && Step(s, s') && s'.hist.rejected != s.hist.rejected
    ensures exists c :: Refuses(s, c, s')
  {
    if AClientSteps(s, s') {
      var c, a :| ClientStep(s, c, a, s');
      ClientRefuses(s, c, a, s');
    } else if TheWorkerSteps(s, s') {
      var a, fair :| WorkerStep(s, a, fair, s');
      WorkerKeeps(s, a, fair, s');
    } else {
      StopperFrame(s, s');
    }
  }

  ghost predicate RefusedRightly(s: State) {
    s.hist.rejected > 0 ==> s.stopping || MayRefuse(s.options)
  }

  lemma {:induction false} RunRefusesRightly(states: seq<State>, n: nat)
    requires Run(states) && n < |states|
    ensures RefusedRightly(states[n])
  {
    if n > 0 {
      RunRefusesRightly(states, n - 1);
      LastStep(states, n - 1);
      if states[n].hist.rejected != states[n - 1].hist.rejected {
        StepRefuses(states[n - 1], states[n]);
      }
    }
  }

  lemma LastStep(states: seq<State>, n: nat)
    requires Run(states) && n + 1 < |states|
    ensures Inv(states[n]) && Step(states[n], states[n + 1]) && Extends(states[n], states[n + 1])
  {
    RunInv(states, n);
    assert StepAt(states, n);
    StepKeeps(states[n], states[n + 1]);
  }

  /** Before shutdown block without a timeout and drop_oldest refuse nothing. */
  lemma NothingRefused(s: State)
    requires Reachable(s) && !s.stopping && !MayRefuse(s.options)
    ensures s.hist.rejected == 0
  {
    var states :| Run(states) && states[|states| - 1] == s;
    RunRefusesRightly(states, |states| - 1);
  }

  ghost predicate CanBeRefused(s: State, c: nat) {
    exists a, s' :: ClientStep(s, c, a, s') && Refuses(s, c, s')
  }

  /** A client at its overflow policy can be refused there under those policies and no others. */
  lemma PolicyRefusesIff(s: State, c: nat, e: nat)
    requires At(s, c, EvPolicy(e))
    ensures CanBeRefused(s, c) <==> MayRefuse(s.options)
  {
    if MayRefuse(s.options) {
      assert ClientStep(s, c, Tau, Refuse(s, c)) && Refuses(s, c, Refuse(s, c));
    }
  }

  // Before the policy comes to bear the queue has said full.

  predicate PastTheQueue(pc: Client, e: nat) {
    pc == EvStop(e) || pc == EvPolicy(e)
  }

  predicate At(s: State, c: nat, pc: Client) {
    c in s.clients && s.clients[c] == pc
  }

  predicate IsPast(s: State, c: nat, e: nat) {
    c in s.clients && PastTheQueue(s.clients[c], e)
  }

  lemma ComesPast(s: State, s': State, c: nat, e: nat)
    requires Inv(s) && Step(s, s') && IsPast(s', c, e)
    ensures IsPast(s, c, e) || (At(s, c, EvTry(e, false)) && !s.log.CanClaim())
  {
    if AClientSteps(s, s') {
      var d, a :| ClientStep(s, d, a, s');
      assert ClientOk(s, s.clients[d]);
      FrameOfClient(s, d, a, s');
      if d == c {
        ClientComesPast(s, c, a, s', e);
      }
    } else if TheWorkerSteps(s, s') {
      var a, fair :| WorkerStep(s, a, fair, s');
      WorkerKeeps(s, a, fair, s');
    } else {
      StopperFrame(s, s');
    }
  }

  lemma ClientComesPast(s: State, c: nat, a: Action<Item>, s': State, e: nat)
    requires ClientStep(s, c, a, s') && c in s'.clients && PastTheQueue(s'.clients[c], e)
    ensures IsPast(s, c, e) || (At(s, c, EvTry(e, false)) && !s.log.CanClaim())
  {
  }

  lemma ComesPastAt(states: seq<State>, n: nat, c: nat, e: nat)
    requires Run(states) && n + 1 < |states| && IsPast(states[n + 1], c, e)
    ensures IsPast(states[n], c, e) || (At(states[n], c, EvTry(e, false)) && !states[n].log.CanClaim())
  {
    LastStep(states, n);
    ComesPast(states[n], states[n + 1], c, e);
  }

  /**
  A client about to refuse its event or to evict another has been told by the queue that it is full, and has only
  looked at stopping_ since.
  */
  lemma {:induction false} QueueSaidFull(states: seq<State>, n: nat, c: nat, e: nat) returns (m: nat)
    requires Run(states) && n < |states| && IsPast(states[n], c, e)
    ensures m < n && At(states[m], c, EvTry(e, false)) && !states[m].log.CanClaim()
    ensures forall k :: m < k <= n ==> IsPast(states[k], c, e)
  {
    assert n > 0;
    ComesPastAt(states, n - 1, c, e);
    if IsPast(states[n - 1], c, e) {
      m := QueueSaidFull(states, n - 1, c, e);
    } else {
      m := n - 1;
    }
  }

  // Every dispatch is somewhere.

  /** Inside `dispatch`, and not refused. */
  predicate InDispatch(pc: Client) {
    match pc
    case EvDrop => false
    case FlCheck(_, k) => k.Evictor?
    case FlTry(_, k) => k.Evictor?
    case FlPublish(_, _, k) => k.Evictor?
    case FlStop(_, k) => k.Evictor?
    case FlLoad(_, k) => k.Evictor?
    case FlRaise(_, _, k) => k.Evictor?
    case FlWait(_) => false
    case Idle => false
    case _ => true
  }

  function Running(clients: map<nat, Client>): set<nat> {
    set c | c in clients && InDispatch(clients[c])
  }

  /** Some client calls `dispatch` in this step. */
  ghost predicate Dispatches(s: State, s': State) {
    exists c :: c in s.clients && c in s'.clients && s.clients[c] == Idle && s'.clients[c].EvCheck?
  }

  /** The number of calls of `dispatch` in the first `n` steps of a run. */
  ghost function Dispatched(states: seq<State>, n: nat): nat
    requires n < |states|
  {
    if n == 0 then 0
    else Dispatched(states, n - 1) + if Dispatches(states[n - 1], states[n]) then 1 else 0
  }

  lemma RunningUpdate(clients: map<nat, Client>, c: nat, pc: Client)
    requires c in clients
    ensures |Running(clients[c := pc])| ==
            |Running(clients)| + (if InDispatch(pc) then 1 else 0) - (if InDispatch(clients[c]) then 1 else 0)
  {
    var rest := set d | d in clients && d != c && InDispatch(clients[d]);
    RunningSplit(clients, c, rest);
    RunningSplit(clients[c := pc], c, rest);
  }

  lemma RunningSplit(clients: map<nat, Client>, c: nat, rest: set<nat>)
    requires c in clients && c !in rest
    requires forall d :: d in rest <==> d in clients && d != c && InDispatch(clients[d])
    ensures |Running(clients)| == |rest| + if InDispatch(clients[c]) then 1 else 0
  {
    if InDispatch(clients[c]) {
      assert Running(clients) == rest + {c};
    } else {
      assert Running(clients) == rest;
    }
  }

  /** What one client step does to the count of running, accepted and refused dispatches. */
  ghost predicate Books(old': Client, new': Client, refused: int, accepted: int) {
    (if old' == Idle && new'.EvCheck? then 1 else 0) ==
    (if InDispatch(new') then 1 else 0) - (if InDispatch(old') then 1 else 0) + refused + accepted
  }

  lemma EventBooksBalance(s: State, c: nat, a: Action<Item>, s': State)
    requires c in s.clients && s.clients[c].InEvent() && EventStep(s, c, a, s')
    ensures c in s'.clients
    ensures Books(s.clients[c], s'.clients[c], s'.hist.rejected - s.hist.rejected, if a.Published? then 1 else 0)
  {
  }

  lemma OtherBooksBalance(s: State, c: nat, a: Action<Item>, s': State)
    requires ClientStep(s, c, a, s') && !s.clients[c].InEvent()
    ensures c in s'.clients
    ensures Books(s.clients[c], s'.clients[c], s'.hist.rejected - s.hist.rejected, 0)
  {
  }

  /** The set of accepted events grows by the ticket that enqueue_event publishes. */
  lemma AcceptedGrows(s: State, a: Action<Item>, s': State)
    requires s.log.WellFormed() && Allowed(s.log, a, s'.log)
    ensures |Accepted(s')| == |Accepted(s)| + if a.Published? && s.log.items[a.ticket].Event? then 1 else 0
  {
    if a.Published? && s.log.items[a.ticket].Event? {
      assert Accepted(s') == Accepted(s) + {a.ticket};
    } else {
      assert Accepted(s') == Accepted(s);
    }
  }

  ghost predicate Balance(s: State, dispatched: nat) {
    dispatched == |Running(s.clients)| + |Accepted(s)| + s.hist.rejected
  }

  lemma ClientBalances(s: State, c: nat, a: Action<Item>, s': State, n: nat)
    requires Inv(s) && ClientStep(s, c, a, s') && Balance(s, n)
    ensures Balance(s', n + if Dispatches(s, s') then 1 else 0)
  {
    assert ClientOk(s, s.clients[c]);
    FrameOfClient(s, c, a, s');
    ClientEffect(s, c, a, s');
    RunningUpdate(s.clients, c, s'.clients[c]);
    AcceptedGrows(s, a, s');
    DispatchesIs(s, c, s');
    if s.clients[c].InEvent() {
      EventBooksBalance(s, c, a, s');
    } else {
      OtherBooksBalance(s, c, a, s');
    }
  }

  lemma DispatchesIs(s: State, c: nat, s': State)
    requires c in s.clients && c in s'.clients && s'.clients == s.clients[c := s'.clients[c]]
    ensures Dispatches(s, s') <==> s.clients[c] == Idle && s'.clients[c].EvCheck?
  {
  }

  lemma OthersBalance(s: State, s': State, a: Action<Item>, n: nat)
    requires s.log.WellFormed() && Allowed(s.log, a, s'.log) && !a.Published?
    requires s'.clients == s.clients && s'.hist.rejected == s.hist.rejected && Balance(s, n)
    ensures Balance(s', n) && !Dispatches(s, s')
  {
    AcceptedGrows(s, a, s');
  }

  lemma StepBalances(s: State, s': State, n: nat)
    requires Inv(s) && Step(s, s') && Balance(s, n)
    ensures Balance(s', n + if Dispatches(s, s') then 1 else 0)
  {
    if AClientSteps(s, s') {
      var c, a :| ClientStep(s, c, a, s');
      ClientBalances(s, c, a, s', n);
    } else if TheWorkerSteps(s, s') {
      var a, fair :| WorkerStep(s, a, fair, s');
      WorkerKeeps(s, a, fair, s');
      OthersBalance(s, s', a, n);
    } else {
      StopperFrame(s, s');
      OthersBalance(s, s', Tau, n);
    }
  }

  lemma StartBalances(s: State)
    requires Init(s)
    ensures Balance(s, 0)
  {
    assert Running(s.clients) == {} && Accepted(s) == {};
  }

  /**
  In every state of every run each call of `dispatch` made so far is still running, or its event is accepted, or it
  was refused: the numbers add up.
  */
  lemma {:induction false} DispatchesConserved(states: seq<State>, n: nat)
    requires Run(states) && n < |states|
    ensures Dispatched(states, n) == |Running(states[n].clients)| + |Accepted(states[n])| + states[n].hist.rejected
  {
    if n == 0 {
      StartBalances(states[0]);
    } else {
      DispatchesConserved(states, n - 1);
      LastStep(states, n - 1);
      StepBalances(states[n - 1], states[n], Dispatched(states, n - 1));
    }
  }

  // And an accepted event is the one that was dispatched.

  /** A call of `dispatch` with event `e`, begun when `start` tickets had been claimed, may be at `pc`. */
  predicate Serves(items: seq<Item>, start: nat, pc: Client, e: nat) {
    match pc
    case EvCheck(f) => f == e
    case EvTry(f, _) => f == e
    case EvPublish(t) => start <= t < |items| && items[t] == Event(e)
    case EvStop(f) => f == e
    case EvPolicy(f) => f == e
    case EvDrop => true
    case EvEvict(f, _) => f == e
    case EvCount(f, _) => f == e
    case FlCheck(_, k) => k == Evictor(e)
    case FlTry(_, k) => k == Evictor(e)
    case FlPublish(_, _, k) => k == Evictor(e)
    case FlStop(_, k) => k == Evictor(e)
    case FlLoad(_, k) => k == Evictor(e)
    case FlRaise(_, _, k) => k == Evictor(e)
    case _ => false
  }

  lemma EventServes(s: State, c: nat, a: Action<Item>, s': State, start: nat, e: nat)
    requires c in s.clients && s.clients[c].InEvent() && EventStep(s, c, a, s')
    requires start <= |s.log.items| && Serves(s.log.items, start, s.clients[c], e)
    ensures c in s'.clients
    ensures if s'.clients[c] == Idle then s.clients[c].EvPublish? || s.clients[c] == EvDrop
            else Serves(s'.log.items, start, s'.clients[c], e)
    ensures s'.clients[c] == Idle && s.clients[c].EvPublish? ==> a == Published(s.clients[c].ticket)
  {
  }

  /** A producer putting back a request goes on with its own event afterwards. */
  lemma FlushServes(s: State, c: nat, a: Action<Item>, s': State, start: nat, e: nat)
    requires c in s.clients && s.clients[c].InFlush() && FlushStep(s, c, a, s')
    requires Serves(s.log.items, start, s.clients[c], e)
    ensures c in s'.clients && s'.clients[c] != Idle && Serves(s'.log.items, start, s'.clients[c], e)
  {
  }

  lemma ClientServes(s: State, c: nat, a: Action<Item>, s': State, start: nat, e: nat)
    requires ClientStep(s, c, a, s') && start <= |s.log.items| && Serves(s.log.items, start, s.clients[c], e)
    ensures c in s'.clients
    ensures if s'.clients[c] == Idle then s.clients[c].EvPublish? || s.clients[c] == EvDrop
            else Serves(s'.log.items, start, s'.clients[c], e)
    ensures s'.clients[c] == Idle && s.clients[c].EvPublish? ==> a == Published(s.clients[c].ticket)
  {
    if s.clients[c].InEvent() {
      EventServes(s, c, a, s', start, e);
    } else {
      FlushServes(s, c, a, s', start, e);
    }
  }

  lemma StaysServing(items: seq<Item>, more: seq<Item>, start: nat, pc: Client, e: nat)
    requires items <= more && Serves(items, start, pc, e)
    ensures Serves(more, start, pc, e)
  {
  }

  /** Client `c` begins a call of `dispatch` with event `e`. */
  predicate Begins(s: State, s': State, c: nat, e: nat) {
    At(s, c, Idle) && At(s', c, EvCheck(e))
  }

  /** The call is over: its event published, under a ticket claimed since, or refused. */
  predicate Ends(s: State, s': State, c: nat, start: nat, e: nat) {
    && c in s.clients && At(s', c, Idle)
    && match s.clients[c]
       case EvPublish(t) =>
         && start <= t < |s.log.items| && s.log.items[t] == Event(e) && s.log.items <= s'.log.items
         && t !in s.log.published && t in s'.log.published
       case EvDrop => true
       case _ => false
  }

  lemma OwnStep(s: State, c: nat, a: Action<Item>, s': State, start: nat, e: nat)
    requires Inv(s) && ClientStep(s, c, a, s') && start <= |s.log.items| && Serves(s.log.items, start, s.clients[c], e)
    ensures c in s'.clients
    ensures if s'.clients[c] == Idle then Ends(s, s', c, start, e) else Serves(s'.log.items, start, s'.clients[c], e)
  {
    assert ClientOk(s, s.clients[c]);
    ClientServes(s, c, a, s', start, e);
    ClientEffect(s, c, a, s');
  }

  lemma OtherStep(s: State, s': State, c: nat, start: nat, e: nat)
    requires Extends(s, s') && c in s.clients && c in s'.clients && s'.clients[c] == s.clients[c]
    requires Serves(s.log.items, start, s.clients[c], e)
    ensures Serves(s'.log.items, start, s'.clients[c], e)
  {
    StaysServing(s.log.items, s'.log.items, start, s.clients[c], e);
  }

  lemma StepServes(s: State, s': State, c: nat, start: nat, e: nat)
    requires Inv(s) && Step(s, s') && Extends(s, s') && c in s.clients
    requires start <= |s.log.items| && Serves(s.log.items, start, s.clients[c], e)
    ensures c in s'.clients
    ensures if s'.clients[c] == Idle then Ends(s, s', c, start, e) else Serves(s'.log.items, start, s'.clients[c], e)
  {
    if AClientSteps(s, s') {
      var d, a :| ClientStep(s, d, a, s');
      if d == c {
        OwnStep(s, c, a, s', start, e);
      } else {
        assert ClientOk(s, s.clients[d]);
        FrameOfClient(s, d, a, s');
        OtherStep(s, s', c, start, e);
      }
    } else if TheWorkerSteps(s, s') {
      var a, fair :| WorkerStep(s, a, fair, s');
      WorkerKeeps(s, a, fair, s');
      OtherStep(s, s', c, start, e);
    } else {
      StopperFrame(s, s');
      OtherStep(s, s', c, start, e);
    }
  }

  /** Client `c` has been busy since step b. */
  ghost predicate BusySince(states: seq<State>, b: nat, n: nat, c: nat) {
    b < n < |states| && forall k :: b < k <= n ==> c in states[k].clients && !At(states[k], c, Idle)
  }

  lemma ServesNext(states: seq<State>, n: nat, c: nat, start: nat, e: nat)
    requires Run(states) && n + 1 < |states| && c in states[n].clients
    requires start <= |states[n].log.items| && Serves(states[n].log.items, start, states[n].clients[c], e)
    ensures c in states[n + 1].clients
    ensures if states[n + 1].clients[c] == Idle then Ends(states[n], states[n + 1], c, start, e)
            else Serves(states[n + 1].log.items, start, states[n + 1].clients[c], e)
  {
    LastStep(states, n);
    StepServes(states[n], states[n + 1], c, start, e);
  }

  /** From its beginning to its end a call of `dispatch` with event `e` is about that event. */
  lemma {:induction false} ServesThroughout(states: seq<State>, b: nat, n: nat, c: nat, e: nat)
    requires Run(states) && BusySince(states, b, n, c) && Begins(states[b], states[b + 1], c, e)
    ensures Serves(states[n].log.items, |states[b].log.items|, states[n].clients[c], e)
    ensures |states[b].log.items| <= |states[n].log.items|
  {
    RunExtends(states, b, n);
    if n > b + 1 {
      ServesThroughout(states, b, n - 1, c, e);
      ServesNext(states, n - 1, c, |states[b].log.items|, e);
    }
  }

  /**
  A call of `dispatch` begun in step b with event `e` and returning in step n was refused, or returns as it publishes
  that very event, under a ticket claimed during the call.
  */
  lemma DispatchAnswers(states: seq<State>, b: nat, n: nat, c: nat, e: nat)
    requires Run(states) && BusySince(states, b, n, c) && Begins(states[b], states[b + 1], c, e)
    requires n + 1 < |states| && At(states[n + 1], c, Idle)
    ensures Ends(states[n], states[n + 1], c, |states[b].log.items|, e)
  {
    ServesThroughout(states, b, n, c, e);
    ServesNext(states, n, c, |states[b].log.items|, e);
  }
}
