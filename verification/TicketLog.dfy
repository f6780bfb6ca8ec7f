/**
The ticket log: what the ring buffer of `mpsc_queue` means to its callers.

Producers claim tickets 0, 1, 2, ... and publish them later, in any order. Consumers take
tickets strictly in order, and release the slot behind a ticket some time after taking it.
The ring refines this log (`RingMachine`); the dispatcher is built on it (`Dispatcher`).
*/
module TicketLog {

  datatype Log<T> = Log(
    capacity: nat,
    items: seq<T>,          // the value claimed with each ticket
    published: set<nat>,    // tickets whose value is visible to consumers
    taken: nat,             // tickets below this one have been claimed by consumers
    released: set<nat>      // taken tickets whose slot has been given back
  ) {
    ghost predicate WellFormed() {
      && capacity >= 2
      && taken <= |items| <= taken + capacity
      && (forall t :: t in published ==> t < |items|)
      && (forall t: nat :: t < taken ==> t in published)
      && (forall t :: t in released ==> t < taken)
      && (forall t: nat :: t + capacity < |items| ==> t in released)
    }

    /** An enqueuer can claim the next ticket: its slot was never used, or was given back. */
    predicate CanClaim() {
      |items| < capacity || (|items| - capacity) in released
    }

    /** A dequeuer can claim the oldest ticket: its value has been published. */
    predicate CanTake() {
      taken in published
    }

    function Claim(v: T): Log<T> {
      this.(items := items + [v])
    }

    function Publish(t: nat): Log<T> {
      this.(published := published + {t})
    }

    function Take(): Log<T> {
      this.(taken := taken + 1)
    }

    function Release(t: nat): Log<T> {
      this.(released := released + {t})
    }

    /** No operation is between its claim and its publish or release. */
    ghost predicate Settled() {
      && (forall t: nat :: t < |items| ==> t in published)
      && (forall t: nat :: t < taken ==> t in released)
    }
  }

  /** What one step of a queue operation did, as seen from outside. */
  datatype Action<T> =
    | Tau
    | Claimed(ticket: nat, value: T)
    | Published(ticket: nat)
    | Took(ticket: nat)
    | Returned(ticket: nat, value: T)   // the dequeue of `ticket` hands out `value`, releasing the slot
    | SaidFull(ticket: nat)             // an enqueue decided to return false, looking at `ticket`
    | SaidEmpty(ticket: nat)            // a dequeue decided to return false, looking at `ticket`

  function Empty<T>(capacity: nat): Log<T> {
    Log(capacity, [], {}, 0, {})
  }

  /** The steps the abstract log allows. */
  ghost predicate Allowed<T>(l: Log<T>, a: Action<T>, l': Log<T>) {
    match a
    case Tau => l' == l
    case Claimed(t, v) => t == |l.items| && l.CanClaim() && l' == l.Claim(v)
    case Published(t) => t < |l.items| && t !in l.published && l' == l.Publish(t)
    case Took(t) => t == l.taken && l.CanTake() && l' == l.Take()
    case Returned(t, v) => t < l.taken && t < |l.items| && t !in l.released && v == l.items[t] && l' == l.Release(t)
    case SaidFull(t) => t == |l.items| && !l.CanClaim() && l' == l
    case SaidEmpty(t) => t == l.taken && !l.CanTake() && l' == l
  }

  lemma AllowedKeepsWellFormed<T>(l: Log<T>, a: Action<T>, l': Log<T>)
    requires l.WellFormed() && Allowed(l, a, l')
    ensures l'.WellFormed() && l'.capacity == l.capacity
    ensures l.items <= l'.items && l.taken <= l'.taken
    ensures l.published <= l'.published && l.released <= l'.released
  {
  }

  /** With nothing in flight the two refusals mean exactly "full" and "empty". */
  lemma SettledRefusals<T>(l: Log<T>)
    requires l.WellFormed() && l.Settled()
    ensures !l.CanClaim() <==> |l.items| - l.taken == l.capacity
    ensures !l.CanTake() <==> |l.items| - l.taken == 0
  {
  }

  /** A history of the log: one state more than there are actions. */
  ghost predicate History<T>(logs: seq<Log<T>>, actions: seq<Action<T>>) {
    && |logs| == |actions| + 1
    && logs[0].WellFormed() && logs[0] == Empty<T>(logs[0].capacity)
    && forall i :: 0 <= i < |actions| ==> Allowed(logs[i], actions[i], logs[i + 1])
  }

  lemma {:induction false} HistoryGrows<T>(logs: seq<Log<T>>, actions: seq<Action<T>>, i: nat, j: nat)
    requires History(logs, actions)
    requires i <= j < |logs|
    ensures logs[i].WellFormed() && logs[j].WellFormed() && logs[j].capacity == logs[0].capacity
    ensures logs[i].items <= logs[j].items && logs[i].taken <= logs[j].taken
    ensures logs[i].published <= logs[j].published && logs[i].released <= logs[j].released
    decreases j
  {
    if j > 0 {
      HistoryGrows(logs, actions, if i < j then i else 0, j - 1);
      AllowedKeepsWellFormed(logs[j - 1], actions[j - 1], logs[j]);
    }
  }

  /** Tickets are consumed in order, and each at most once. */
  lemma TakenInOrder<T>(logs: seq<Log<T>>, actions: seq<Action<T>>, i: nat, j: nat)
    requires History(logs, actions)
    requires i < j < |actions| && actions[i].Took? && actions[j].Took?
    ensures actions[i].ticket < actions[j].ticket
  {
    assert Allowed(logs[i], actions[i], logs[i + 1]) && Allowed(logs[j], actions[j], logs[j + 1]);
    HistoryGrows(logs, actions, i + 1, j);
  }

  /** Every ticket below the number of claimed tickets was claimed by exactly the step that stored its value. */
  lemma {:induction false} ClaimStep<T>(logs: seq<Log<T>>, actions: seq<Action<T>>, n: nat, t: nat) returns (i: nat)
    requires History(logs, actions)
    requires n < |logs| && t < |logs[n].items|
    ensures i < n && actions[i] == Claimed(t, logs[n].items[t])
  {
    HistoryGrows(logs, actions, n - 1, n);
    if t < |logs[n - 1].items| {
      i := ClaimStep(logs, actions, n - 1, t);
    } else {
      i := n - 1;
    }
  }

  /** A published ticket was published by an earlier step. */
  lemma {:induction false} PublishStep<T>(logs: seq<Log<T>>, actions: seq<Action<T>>, n: nat, t: nat) returns (i: nat)
    requires History(logs, actions)
    requires n < |logs| && t in logs[n].published
    ensures i < n && actions[i] == Published(t)
  {
    HistoryGrows(logs, actions, n - 1, n);
    if t in logs[n - 1].published {
      i := PublishStep(logs, actions, n - 1, t);
    } else {
      i := n - 1;
    }
  }

  /** A taken ticket was taken by an earlier step. */
  lemma {:induction false} TakeStep<T>(logs: seq<Log<T>>, actions: seq<Action<T>>, n: nat, t: nat) returns (i: nat)
    requires History(logs, actions)
    requires n < |logs| && t < logs[n].taken
    ensures i < n && actions[i] == Took(t)
  {
    HistoryGrows(logs, actions, n - 1, n);
    if t < logs[n - 1].taken {
      i := TakeStep(logs, actions, n - 1, t);
    } else {
      i := n - 1;
    }
  }

  /**
  The life of a ticket: the dequeue that hands out ticket `t` returns the very value that the enqueue
  of `t` stored, after that enqueue claimed and published it and the dequeue took it.
  */
  lemma LifeOfATicket<T>(logs: seq<Log<T>>, actions: seq<Action<T>>, n: nat)
    requires History(logs, actions)
    requires n < |actions| && actions[n].Returned?
    ensures exists c, p, k ::
              && 0 <= c < p < k < n
              && actions[c] == Claimed(actions[n].ticket, actions[n].value)
              && actions[p] == Published(actions[n].ticket)
              && actions[k] == Took(actions[n].ticket)
  {
    var t := actions[n].ticket;
    assert Allowed(logs[n], actions[n], logs[n + 1]);
    var k := TakeStep(logs, actions, n, t);
    assert Allowed(logs[k], actions[k], logs[k + 1]);
    var p := PublishStep(logs, actions, k, t);
    assert Allowed(logs[p], actions[p], logs[p + 1]);
    HistoryGrows(logs, actions, p, n);
    var c := ClaimStep(logs, actions, p, t);
  }

  /** Two steps that do the same to a ticket: claim, publish, take or return it. */
  predicate SameKind<T>(a: Action<T>, b: Action<T>) {
    || (a.Claimed? && b.Claimed?) || (a.Published? && b.Published?)
    || (a.Took? && b.Took?) || (a.Returned? && b.Returned?)
  }

  lemma TicketDiffers<T>(logs: seq<Log<T>>, actions: seq<Action<T>>, i: nat, j: nat)
    requires History(logs, actions)
    requires i < j < |actions| && SameKind(actions[i], actions[j])
    ensures actions[i].ticket != actions[j].ticket
  {
    assert Allowed(logs[i], actions[i], logs[i + 1]) && Allowed(logs[j], actions[j], logs[j + 1]);
    HistoryGrows(logs, actions, i + 1, j);
  }

  /** Each ticket is claimed, published, taken and returned at most once. */
  lemma TicketsDiffer<T>(logs: seq<Log<T>>, actions: seq<Action<T>>)
    requires History(logs, actions)
    ensures forall i, j :: 0 <= i < j < |actions| && SameKind(actions[i], actions[j]) ==>
              actions[i].ticket != actions[j].ticket
  {
    forall i: nat, j: nat | i < j < |actions| && SameKind(actions[i], actions[j])
      ensures actions[i].ticket != actions[j].ticket
    {
      TicketDiffers(logs, actions, i, j);
    }
  }

  /** A ticket is returned with the value it was claimed with. */
  lemma ValueIsKept<T>(logs: seq<Log<T>>, actions: seq<Action<T>>, c: nat, n: nat)
    requires History(logs, actions)
    requires c < n < |actions| && actions[c].Claimed? && actions[n].Returned?
    requires actions[c].ticket == actions[n].ticket
    ensures actions[c].value == actions[n].value
  {
    assert Allowed(logs[c], actions[c], logs[c + 1]) && Allowed(logs[n], actions[n], logs[n + 1]);
    HistoryGrows(logs, actions, c + 1, n);
  }
}
