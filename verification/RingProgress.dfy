/**
Progress of the ring: a thread retries only when `compare_exchange_weak` fails for no reason, or when another thread
has claimed or taken the very ticket it was after. So its steps are bounded by its calls, the spurious failures and
the successes of others.
*/
module RingProgress {
  import opened TicketLog
  import opened Words
  import opened RingMachine
  import opened RingRuns

  /** The thread goes back to load head_ or tail_, or has loaded it again. */
  predicate Again<T>(old': Pc<T>, new': Pc<T>) {
    || (old'.EnqSequence? && new'.EnqHead?) || (old'.EnqSwap? && new'.EnqSequence?)
    || (old'.DeqSequence? && new'.DeqTail?) || (old'.DeqSwap? && new'.DeqSequence?)
  }

  /** Head_ or tail_ is no longer what the thread loaded. */
  predicate Overtaken<T>(s: State<T>, pc: Pc<T>) {
    || ((pc.EnqSequence? || pc.EnqSwap?) && pc.pos != s.head)
    || ((pc.DeqSequence? || pc.DeqSwap?) && pc.pos != s.tail)
  }

  /** A retry of a thread that nobody has overtaken is a failed swap. */
  lemma RetryIs<T(!new)>(s: State<T>, id: nat, a: Action<T>, s': State<T>)
    requires Inv(s) && Step(s, id, a, s') && Again(s.threads[id], s'.threads[id])
    ensures Overtaken(s, s.threads[id]) || s.threads[id].EnqSwap? || s.threads[id].DeqSwap?
  {
    assert ThreadOk(s, s.threads[id]);
    match s.threads[id]
    case EnqSequence(_, pos) => EnqueueLoad(s, pos);
    case DeqSequence(pos) => DequeueLoad(s, pos);
    case _ =>
  }

  // Who has overtaken whom.

  /** Step m of thread `id` loaded `pos` from head_ or tail_; up to step n the thread has only looked at the slot. */
  ghost predicate LoadedAt<T(!new)>(states: seq<State<T>>, ids: seq<nat>, actions: seq<Action<T>>,
                                    m: nat, n: nat, id: nat, pos: nat, enqueues: bool)
    requires |states| == |ids| + 1 == |actions| + 1
  {
    && m < n < |states| && ids[m] == id && pos == (if enqueues then states[m].head else states[m].tail)
    && forall k :: m <= k < n && ids[k] == id ==> actions[k] == Tau
  }

  predicate Enqueuing<T>(pc: Pc<T>, pos: nat) {
    (pc.EnqSequence? || pc.EnqSwap?) && pc.pos == pos
  }

  predicate Dequeuing<T>(pc: Pc<T>, pos: nat) {
    (pc.DeqSequence? || pc.DeqSwap?) && pc.pos == pos
  }

  /** A thread looking at a slot has just loaded the position, or was already looking. */
  lemma StepLoads<T(!new)>(s: State<T>, id: nat, a: Action<T>, s': State<T>, i: nat, pos: nat)
    requires Shaped(s) && Step(s, id, a, s') && i in s'.threads
    ensures i in s.threads
    ensures Enqueuing(s'.threads[i], pos) ==>
              (id == i ==> a == Tau) && ((id == i && pos == s.head) || Enqueuing(s.threads[i], pos))
    ensures Dequeuing(s'.threads[i], pos) ==>
              (id == i ==> a == Tau) && ((id == i && pos == s.tail) || Dequeuing(s.threads[i], pos))
  {
  }

  lemma LoadedLonger<T(!new)>(states: seq<State<T>>, ids: seq<nat>, actions: seq<Action<T>>,
                              m: nat, n: nat, id: nat, pos: nat, enqueues: bool)
    requires |states| == |ids| + 1 == |actions| + 1 && 0 < n < |states|
    requires LoadedAt(states, ids, actions, m, n - 1, id, pos, enqueues)
    requires ids[n - 1] == id ==> actions[n - 1] == Tau
    ensures LoadedAt(states, ids, actions, m, n, id, pos, enqueues)
  {
  }

  lemma {:induction false} EnqueueLoaded<T(!new)>(states: seq<State<T>>, ids: seq<nat>, actions: seq<Action<T>>,
                                                  n: nat, id: nat, pos: nat) returns (m: nat)
    requires Run(states, ids, actions) && n < |states|
    requires id in states[n].threads && Enqueuing(states[n].threads[id], pos)
    ensures LoadedAt(states, ids, actions, m, n, id, pos, true)
  {
    assert n > 0;
    StepLoads(states[n - 1], ids[n - 1], actions[n - 1], states[n], id, pos);
    if ids[n - 1] == id && pos == states[n - 1].head {
      m := n - 1;
    } else {
      m := EnqueueLoaded(states, ids, actions, n - 1, id, pos);
      LoadedLonger(states, ids, actions, m, n, id, pos, true);
    }
  }

  lemma {:induction false} DequeueLoaded<T(!new)>(states: seq<State<T>>, ids: seq<nat>, actions: seq<Action<T>>,
                                                  n: nat, id: nat, pos: nat) returns (m: nat)
    requires Run(states, ids, actions) && n < |states|
    requires id in states[n].threads && Dequeuing(states[n].threads[id], pos)
    ensures LoadedAt(states, ids, actions, m, n, id, pos, false)
  {
    assert n > 0;
    StepLoads(states[n - 1], ids[n - 1], actions[n - 1], states[n], id, pos);
    if ids[n - 1] == id && pos == states[n - 1].tail {
      m := n - 1;
    } else {
      m := DequeueLoaded(states, ids, actions, n - 1, id, pos);
      LoadedLonger(states, ids, actions, m, n, id, pos, false);
    }
  }

  /** Head_ moves only by claims, each of the ticket it held. */
  lemma {:induction false} HeadMoved<T(!new)>(states: seq<State<T>>, ids: seq<nat>, actions: seq<Action<T>>,
                                              m: nat, n: nat) returns (k: nat)
    requires Run(states, ids, actions) && m <= n < |states| && states[n].head != states[m].head
    ensures m <= k < n && actions[k].Claimed? && actions[k].ticket == states[m].head
    decreases n
  {
    assert m < n;
    assert Step(states[n - 1], ids[n - 1], actions[n - 1], states[n]);
    if states[n - 1].head != states[m].head {
      k := HeadMoved(states, ids, actions, m, n - 1);
    } else {
      k := n - 1;
    }
  }

  lemma {:induction false} TailMoved<T(!new)>(states: seq<State<T>>, ids: seq<nat>, actions: seq<Action<T>>,
                                              m: nat, n: nat) returns (k: nat)
    requires Run(states, ids, actions) && m <= n < |states| && states[n].tail != states[m].tail
    ensures m <= k < n && actions[k] == Took(states[m].tail)
    decreases n
  {
    assert m < n;
    assert Step(states[n - 1], ids[n - 1], actions[n - 1], states[n]);
    if states[n - 1].tail != states[m].tail {
      k := TailMoved(states, ids, actions, m, n - 1);
    } else {
      k := n - 1;
    }
  }

  /** At step n an enqueue goes back. */
  ghost predicate EnqueueGoesBack<T(!new)>(states: seq<State<T>>, ids: seq<nat>, n: nat)
    requires |states| == |ids| + 1
  {
    && n < |ids| && ids[n] in states[n].threads && ids[n] in states[n + 1].threads
    && (states[n].threads[ids[n]].EnqSequence? || states[n].threads[ids[n]].EnqSwap?)
    && Again(states[n].threads[ids[n]], states[n + 1].threads[ids[n]])
  }

  ghost predicate DequeueGoesBack<T(!new)>(states: seq<State<T>>, ids: seq<nat>, n: nat)
    requires |states| == |ids| + 1
  {
    && n < |ids| && ids[n] in states[n].threads && ids[n] in states[n + 1].threads
    && (states[n].threads[ids[n]].DeqSequence? || states[n].threads[ids[n]].DeqSwap?)
    && Again(states[n].threads[ids[n]], states[n + 1].threads[ids[n]])
  }

  /**
  An enqueue that goes back, other than by a swap that fails although head_ is unchanged, has been overtaken: since
  it loaded head_ another thread has claimed the ticket it read there.
  */
  lemma EnqueueOvertaken<T(!new)>(states: seq<State<T>>, ids: seq<nat>, actions: seq<Action<T>>, n: nat)
    requires Run(states, ids, actions) && states[0].capacity >= 2 && EnqueueGoesBack(states, ids, n)
    ensures var pc := states[n].threads[ids[n]];
            || (pc.EnqSwap? && pc.pos == states[n].head)
            || exists m: nat, k: nat :: && m < k < n && LoadedAt(states, ids, actions, m, n, ids[n], pc.pos, true)
                              && actions[k].Claimed? && actions[k].ticket == pc.pos && ids[k] != ids[n]
  {
    RunInv(states, ids, actions, n);
    RetryIs(states[n], ids[n], actions[n], states[n + 1]);
    var m := EnqueueLoaded(states, ids, actions, n, ids[n], states[n].threads[ids[n]].pos);
    if states[n].threads[ids[n]].pos != states[n].head {
      var k := HeadMoved(states, ids, actions, m, n);
      assert m < k < n;
    }
  }

  /** The same for a dequeue, tail_, and a thread that has taken the ticket. */
  lemma DequeueOvertaken<T(!new)>(states: seq<State<T>>, ids: seq<nat>, actions: seq<Action<T>>, n: nat)
    requires Run(states, ids, actions) && states[0].capacity >= 2 && DequeueGoesBack(states, ids, n)
    ensures var pc := states[n].threads[ids[n]];
            || (pc.DeqSwap? && pc.pos == states[n].tail)
            || exists m: nat, k: nat :: && m < k < n && LoadedAt(states, ids, actions, m, n, ids[n], pc.pos, false)
                              && actions[k] == Took(pc.pos) && ids[k] != ids[n]
  {
    RunInv(states, ids, actions, n);
    RetryIs(states[n], ids[n], actions[n], states[n + 1]);
    var m := DequeueLoaded(states, ids, actions, n, ids[n], states[n].threads[ids[n]].pos);
    if states[n].threads[ids[n]].pos != states[n].tail {
      var k := TailMoved(states, ids, actions, m, n);
      assert m < k < n;
    }
  }

  // How many steps a thread can be made to take.

  /** One thread's account: its steps, the calls it began, its retries, and what the others did meanwhile. */
  datatype Account = Account(steps: nat, calls: nat, enqueueRetries: nat, dequeueRetries: nat, spurious: nat,
                             claims: nat, takes: nat)

  function Add<T>(account: Account, id: nat, s: State<T>, mover: nat, a: Action<T>, s': State<T>): Account
    requires id in s.threads && id in s'.threads
  {
    var pc, again := s.threads[id], Again(s.threads[id], s'.threads[id]);
    if mover != id then
      account.(claims := account.claims + if a.Claimed? then 1 else 0,
               takes := account.takes + if a.Took? then 1 else 0)
    else
      account.(steps := account.steps + 1,
               calls := account.calls + if pc.Idle? then 1 else 0,
               enqueueRetries := account.enqueueRetries +
                                 if again && Overtaken(s, pc) && !pc.DequeueSide() then 1 else 0,
               dequeueRetries := account.dequeueRetries +
                                 if again && Overtaken(s, pc) && pc.DequeueSide() then 1 else 0,
               spurious := account.spurious + if again && !Overtaken(s, pc) then 1 else 0)
  }

  function AccountOf<T(!new)>(states: seq<State<T>>, ids: seq<nat>, actions: seq<Action<T>>, id: nat, n: nat):
      Account
    requires n <= |ids| == |actions| && |states| == |ids| + 1
    requires forall s :: s in states ==> id in s.threads
  {
    if n == 0 then Account(0, 0, 0, 0, 0, 0, 0)
    else Add(AccountOf(states, ids, actions, id, n - 1), id, states[n - 1], ids[n - 1], actions[n - 1], states[n])
  }

  /** The steps a call has before it without another retry. */
  function Left<T>(pc: Pc<T>): nat {
    match pc
    case Idle => 0
    case EnqHead(_) => 5
    case EnqSequence(_, _) => 4
    case EnqSwap(_, _) => 3
    case EnqData(_, _) => 2
    case EnqPublish(_) => 1
    case DeqTail => 5
    case DeqSequence(_) => 4
    case DeqSwap(_) => 3
    case DeqData(_) => 2
    case DeqRelease(_, _) => 1
  }

  predicate Balanced<T(!new)>(account: Account, s: State<T>, pc: Pc<T>) {
    && account.steps + Left(pc) <=
       6 * account.calls + 2 * (account.enqueueRetries + account.dequeueRetries + account.spurious)
    && account.enqueueRetries + (if Overtaken(s, pc) && !pc.DequeueSide() then 1 else 0) <= account.claims
    && account.dequeueRetries + (if Overtaken(s, pc) && pc.DequeueSide() then 1 else 0) <= account.takes
  }

  lemma StepLeaves<T(!new)>(s: State<T>, id: nat, a: Action<T>, s': State<T>)
    requires Shaped(s) && Step(s, id, a, s')
    ensures id in s'.threads
    ensures Left(s'.threads[id]) < Left(s.threads[id]) +
            (if s.threads[id].Idle? then 6 else if Again(s.threads[id], s'.threads[id]) then 2 else 0)
  {
  }

  /** A thread is not overtaken by its own steps, and goes back once it is. */
  lemma StepCatchesUp<T(!new)>(s: State<T>, id: nat, a: Action<T>, s': State<T>)
    requires Shaped(s) && Step(s, id, a, s')
    ensures id in s'.threads
    ensures Overtaken(s', s'.threads[id]) ==>
              Overtaken(s, s.threads[id]) && s.threads[id].DequeueSide() == s'.threads[id].DequeueSide() &&
              !Again(s.threads[id], s'.threads[id])
  {
  }

  lemma OtherStep<T(!new)>(s: State<T>, mover: nat, a: Action<T>, s': State<T>, id: nat)
    requires Shaped(s) && Step(s, mover, a, s') && id in s.threads && id != mover
    ensures id in s'.threads && s'.threads[id] == s.threads[id]
    ensures Overtaken(s', s.threads[id]) && !Overtaken(s, s.threads[id]) ==>
              if s.threads[id].DequeueSide() then a.Took? else a.Claimed?
  {
  }

  lemma StepBalances<T(!new)>(account: Account, id: nat, s: State<T>, mover: nat, a: Action<T>, s': State<T>)
    requires Inv(s) && id in s.threads && Step(s, mover, a, s') && Balanced(account, s, s.threads[id])
    ensures id in s'.threads && Balanced(Add(account, id, s, mover, a, s'), s', s'.threads[id])
  {
    if mover == id {
      StepLeaves(s, id, a, s');
      StepCatchesUp(s, id, a, s');
    } else {
      OtherStep(s, mover, a, s', id);
    }
  }

  lemma {:induction false} RunBalances<T(!new)>(states: seq<State<T>>, ids: seq<nat>, actions: seq<Action<T>>,
                                                id: nat, n: nat)
    requires Run(states, ids, actions) && states[0].capacity >= 2 && n <= |ids|
    requires forall s :: s in states ==> id in s.threads
    ensures Balanced(AccountOf(states, ids, actions, id, n), states[n], states[n].threads[id])
  {
    if n > 0 {
      RunBalances(states, ids, actions, id, n - 1);
      RunInv(states, ids, actions, n - 1);
      StepBalances(AccountOf(states, ids, actions, id, n - 1), id,
                   states[n - 1], ids[n - 1], actions[n - 1], states[n]);
    }
  }

  /**
  Over any run, a thread's enqueues retry at most once for each claim by another thread, its dequeues at most once
  for each ticket another thread takes, spurious failures apart; and it makes at most six steps a call and two more
  for each of these.
  */
  lemma StepsBounded<T(!new)>(states: seq<State<T>>, ids: seq<nat>, actions: seq<Action<T>>, id: nat)
    requires Run(states, ids, actions) && states[0].capacity >= 2
    requires forall s :: s in states ==> id in s.threads
    ensures var account := AccountOf(states, ids, actions, id, |ids|);
            && account.enqueueRetries <= account.claims && account.dequeueRetries <= account.takes
            && account.steps <= 6 * account.calls + 2 * (account.claims + account.takes + account.spurious)
  {
    RunBalances(states, ids, actions, id, |ids|);
  }

  /** A thread inside a call is never stuck, and its step need not be a spurious failure. */
  lemma ThreadCanStep<T(!new)>(s: State<T>, id: nat) returns (a: Action<T>, s': State<T>)
    requires Shaped(s) && id in s.threads && !s.threads[id].Idle?
    ensures Step(s, id, a, s') && (s.threads[id].EnqSwap? && s.threads[id].pos == s.head ==> a.Claimed?)
    ensures s.threads[id].DeqSwap? && s.threads[id].pos == s.tail ==> a.Took?
  {
    a := Tau;
    match s.threads[id]
    case EnqHead(v) => s' := s.With(id, EnqSequence(v, s.head));
    case EnqSequence(v, pos) =>
      var seen := s.sequence[Slot(pos, s.capacity)];
      a := if seen < pos then SaidFull(pos) else Tau;
      s' := s.With(id, if seen == pos then EnqSwap(v, pos) else if seen < pos then Idle else EnqHead(v));
    case EnqSwap(v, pos) =>
      if s.head == pos {
        a, s' := Claimed(pos, v), s.With(id, EnqData(v, pos)).(head := pos + 1, log := s.log.Claim(v));
      } else {
        s' := s.With(id, EnqSequence(v, s.head));
      }
    case EnqData(v, pos) =>
      s' := s.With(id, EnqPublish(pos)).(data := s.data[Slot(pos, s.capacity) := v]);
    case EnqPublish(pos) =>
      a := Published(pos);
      s' := s.With(id, Idle).(sequence := s.sequence[Slot(pos, s.capacity) := pos + 1],
                                   log := s.log.Publish(pos));
    case DeqTail => s' := s.With(id, DeqSequence(s.tail));
    case DeqSequence(pos) =>
      var seen := s.sequence[Slot(pos, s.capacity)];
      a := if seen < pos + 1 then SaidEmpty(pos) else Tau;
      s' := s.With(id, if seen == pos + 1 then DeqSwap(pos) else if seen < pos + 1 then Idle else DeqTail);
    case DeqSwap(pos) =>
      if s.tail == pos {
        a, s' := Took(pos), s.With(id, DeqData(pos)).(tail := pos + 1, log := s.log.Take());
      } else {
        s' := s.With(id, DeqSequence(s.tail));
      }
    case DeqData(pos) => s' := s.With(id, DeqRelease(pos, s.data[Slot(pos, s.capacity)]));
    case DeqRelease(pos, v) =>
      a := Returned(pos, v);
      s' := s.With(id, Idle).(sequence := s.sequence[Slot(pos, s.capacity) := pos + s.capacity],
                                   log := s.log.Release(pos));
  }
}
