/** What every step of the dispatcher keeps. */
module DispatcherInvariant {
  import opened TicketLog
  import opened Dispatcher

  /** The tickets taken by the worker, in order. */
  function OwnedBy(takers: seq<Taker>): seq<nat> {
    if takers == [] then []
    else
      var n := |takers| - 1;
      OwnedBy(takers[..n]) + if takers[n] == ByWorker then [n] else []
  }

  lemma {:induction false} OwnedByMembers(takers: seq<Taker>)
    ensures forall t :: t in OwnedBy(takers) <==> 0 <= t < |takers| && takers[t] == ByWorker
    ensures forall i, j :: 0 <= i < j < |OwnedBy(takers)| ==> OwnedBy(takers)[i] < OwnedBy(takers)[j]
  {
    if takers != [] {
      var before := takers[..|takers| - 1];
      OwnedByMembers(before);
      assert forall t :: t in OwnedBy(before) ==> t < |before|;
      assert forall i :: 0 <= i < |OwnedBy(before)| ==> OwnedBy(before)[i] in OwnedBy(before);
    }
  }

  lemma OwnedByAppend(takers: seq<Taker>, who: Taker)
    ensures OwnedBy(takers + [who]) == OwnedBy(takers) + if who == ByWorker then [|takers|] else []
  {
    assert (takers + [who])[..|takers|] == takers;
  }

  ghost predicate Basics(s: State) {
    && s.log.WellFormed() && |s.hist.takers| == s.log.taken && s.options.batchSize > 0
    && (s.stopper == Alive) == !s.stopping
    && (forall t :: 0 <= t < |s.hist.takers| && s.hist.takers[t] == ByProducer ==> s.options.policy == DropOldest)
    && s.completed <= MAX_ID && s.nextFlush == |s.hist.mark| <= MAX_ID
    && (forall t :: 0 <= t < |s.log.items| && s.log.items[t].FlushRequest? ==> 1 <= s.log.items[t].id <= s.nextFlush)
  }

  ghost predicate MarksOk(s: State) {
    && (forall i :: 0 <= i < |s.hist.mark| ==> s.hist.mark[i] <= |s.log.items|)
    && (forall i, j :: 0 <= i <= j < |s.hist.mark| ==> s.hist.mark[i] <= s.hist.mark[j])
  }

  ghost predicate ClientOk(s: State, pc: Client) {
    match pc
    case EvPublish(t) => t < |s.log.items| && t !in s.log.published && s.log.items[t].Event?
    case FlPublish(id, t, _) =>
      1 <= id <= s.nextFlush && t < |s.log.items| && t !in s.log.published && s.log.items[t] == FlushRequest(id)
    case EvEvict(_, t) =>
      t < |s.hist.takers| && t < |s.log.items| && t !in s.log.released && s.hist.takers[t] == ByProducer
    case EvCount(_, t) => t < |s.hist.takers| && t < |s.log.items| && s.hist.takers[t] == ByProducer
    case FlCheck(id, _) => 1 <= id <= s.nextFlush
    case FlTry(id, _) => 1 <= id <= s.nextFlush
    case FlStop(id, _) => 1 <= id <= s.nextFlush
    case FlLoad(id, _) => 1 <= id <= s.nextFlush && s.stopping
    case FlRaise(id, seen, _) => 1 <= id <= s.nextFlush && s.stopping
    case FlWait(id) => 1 <= id <= s.nextFlush
    case _ => true
  }

  ghost predicate ClientsOk(s: State) {
    forall c :: c in s.clients ==> ClientOk(s, s.clients[c])
  }

  /** A ticket is published by one client, and released by one. */
  ghost predicate Exclusive(s: State) {
    forall c, d :: c in s.clients && d in s.clients && c != d ==>
      && (forall t: nat :: !(s.clients[c].Publishing(t) && s.clients[d].Publishing(t)))
      && (forall t: nat :: !(s.clients[c].Releasing(t) && s.clients[d].Releasing(t)))
  }

  /** A claimed ticket that is not published has a client about to publish it. */
  ghost predicate Attended(s: State) {
    forall t: nat :: t < |s.log.items| && t !in s.log.published ==>
      exists c :: c in s.clients && s.clients[c].Publishing(t)
  }

  /** The worker's program counter and batch. */
  ghost predicate WorkerOk(s: State) {
    && |s.batch| <= s.options.batchSize
    && match s.worker
       case Top => s.batch == []
       case Dequeue(_) => s.batch == [] && s.hist.lost == []
       case HandRelease(t) => s.batch == [] && s.hist.lost == [] && t !in s.log.released
       case Recheck => s.batch == [] && s.hist.lost == []
       case Branch(hand) =>
         s.batch == [] && |hand| <= 1 && (hand == [] ==> s.stopping) && (hand != [] ==> s.hist.lost == [])
       case Fill => s.hist.lost == [] && s.batch != []
       case FillRelease(t) => s.hist.lost == [] && |s.batch| < s.options.batchSize && t !in s.log.released
       case Drain => s.stopping && |s.batch| < s.options.batchSize
       case DrainRelease(t) => s.stopping && |s.batch| < s.options.batchSize && t !in s.log.released
       case Process => true
       case LoadCompleted(id) => 1 <= id <= s.nextFlush
       case Raise(id, _) => 1 <= id <= s.nextFlush
       case LastFlush => s.stopping && s.batch == []
       case Finished => s.stopping && s.batch == [] && s.hist.finalFlush
  }

  /**
  Every ticket the worker took is, in ticket order, processed, lost, or held; at most one is lost,
  and none before stopping_ is set.
  */
  ghost predicate Accounted(s: State) {
    && |s.hist.lost| <= 1 && (s.hist.lost != [] ==> s.stopping) && s.hist.lostAt <= |s.hist.done|
    && OwnedBy(s.hist.takers) == Handled(s.hist) + s.Held()
  }

  /** The tickets the worker is through with: processed, with the lost one where it fell. */
  function Handled(h: History): seq<nat>
    requires h.lostAt <= |h.done|
  {
    h.done[..h.lostAt] + (h.lost + h.done[h.lostAt..])
  }

  lemma HandledWithoutLoss(h: History)
    requires h.lostAt <= |h.done| && h.lost == []
    ensures Handled(h) == h.done
  {
  }

  lemma HandledAppend(h: History, t: nat)
    requires h.lostAt <= |h.done|
    ensures Handled(h.(done := h.done + [t])) == Handled(h) + [t]
  {
    assert (h.done + [t])[..h.lostAt] == h.done[..h.lostAt];
    assert (h.done + [t])[h.lostAt..] == h.done[h.lostAt..] + [t];
  }

  ghost predicate Inv(s: State) {
    && Basics(s) && MarksOk(s) && ClientsOk(s) && Exclusive(s) && Attended(s) && WorkerOk(s) && Accounted(s)
  }

  lemma InitInv(s: State)
    requires Init(s)
    ensures Inv(s)
  {
  }

  // Client steps.

  /** What no client step touches, and how it changes the rest. */
  ghost predicate ClientFrame(s: State, c: nat, a: Action<Item>, s': State) {
    && c in s.clients && c in s'.clients && s'.clients == s.clients[c := s'.clients[c]]
    && s'.options == s.options && s'.stopping == s.stopping
    && s'.worker == s.worker && s'.batch == s.batch && s'.stopper == s.stopper
    && s'.hist == s.hist.(takers := s'.hist.takers, rejected := s'.hist.rejected,
                          mark := s'.hist.mark, places := s'.hist.places)
    && s'.hist.takers == (if a.Took? then s.hist.takers + [ByProducer] else s.hist.takers)
    && (a.Took? ==> s.options.policy == DropOldest)
    && (|| (s'.nextFlush == s.nextFlush && s'.hist.mark == s.hist.mark)
        || (s.nextFlush < MAX_ID && s'.nextFlush == s.nextFlush + 1 && s'.log == s.log
            && s'.hist.mark == s.hist.mark + [|s.log.items|]))
    && s.completed <= s'.completed && (!s.stopping ==> s'.completed == s.completed)
    && (s'.completed != s.completed ==> s'.completed <= s.nextFlush)
    && (a.Claimed? && a.value.FlushRequest? ==> 1 <= a.value.id <= s.nextFlush)
  }

  lemma EventFrame(s: State, c: nat, a: Action<Item>, s': State)
    requires c in s.clients && s.clients[c].InEvent() && EventStep(s, c, a, s')
    ensures ClientFrame(s, c, a, s')
  {
  }

  lemma FlushFrame(s: State, c: nat, a: Action<Item>, s': State)
    requires c in s.clients && s.clients[c].InFlush() && FlushStep(s, c, a, s') && ClientOk(s, s.clients[c])
    ensures ClientFrame(s, c, a, s')
  {
  }

  lemma FrameOfClient(s: State, c: nat, a: Action<Item>, s': State)
    requires ClientStep(s, c, a, s') && ClientOk(s, s.clients[c])
    ensures ClientFrame(s, c, a, s')
  {
    if s.clients[c].InEvent() {
      EventFrame(s, c, a, s');
    } else if s.clients[c].InFlush() {
      FlushFrame(s, c, a, s');
    }
  }

  /** Which ticket a client is about to publish or release, before and after its step. */
  ghost predicate ClientOwns(old': Client, a: Action<Item>, new': Client) {
    match a
    case Claimed(t, _) => !old'.Owns() && new'.Publishing(t)
    case Published(t) => old'.Publishing(t) && !new'.Owns()
    case Took(t) => !old'.Owns() && new'.Releasing(t)
    case Returned(t, _) => old'.Releasing(t) && !new'.Owns()
    case _ => !old'.Owns() && !new'.Owns()
  }

  lemma EventLog(s: State, c: nat, a: Action<Item>, s': State)
    requires Basics(s) && c in s.clients && s.clients[c].InEvent()
    requires EventStep(s, c, a, s') && ClientOk(s, s.clients[c])
    ensures Allowed(s.log, a, s'.log) && ClientOwns(s.clients[c], a, s'.clients[c])
  {
  }

  lemma FlushLog(s: State, c: nat, a: Action<Item>, s': State)
    requires Basics(s) && c in s.clients && s.clients[c].InFlush()
    requires FlushStep(s, c, a, s') && ClientOk(s, s.clients[c])
    ensures Allowed(s.log, a, s'.log) && ClientOwns(s.clients[c], a, s'.clients[c])
  {
  }

  lemma EventSelf(s: State, c: nat, a: Action<Item>, s': State)
    requires Basics(s) && c in s.clients && s.clients[c].InEvent()
    requires EventStep(s, c, a, s') && ClientOk(s, s.clients[c])
    ensures ClientOk(s', s'.clients[c])
  {
  }

  lemma FlushSelf(s: State, c: nat, a: Action<Item>, s': State)
    requires Basics(s) && c in s.clients && s.clients[c].InFlush()
    requires FlushStep(s, c, a, s') && ClientOk(s, s.clients[c])
    ensures ClientOk(s', s'.clients[c])
  {
  }

  /** Every client step is one the ticket log allows, and leaves its own client right. */
  lemma ClientEffect(s: State, c: nat, a: Action<Item>, s': State)
    requires c in s'.clients && Basics(s) && ClientStep(s, c, a, s') && ClientOk(s, s.clients[c])
    ensures Allowed(s.log, a, s'.log) && ClientOwns(s.clients[c], a, s'.clients[c])
    ensures ClientOk(s', s'.clients[c])
  {
    if s.clients[c].InEvent() {
      EventLog(s, c, a, s');
      EventSelf(s, c, a, s');
    } else if s.clients[c].InFlush() {
      FlushLog(s, c, a, s');
      FlushSelf(s, c, a, s');
    }
  }

  // How the parts of the invariant depend on the queue. `who` took the ticket if the action is Took.

  /** What both kinds of step have in common. */
  ghost predicate Grows(s: State, a: Action<Item>, who: Taker, s': State) {
    && Allowed(s.log, a, s'.log) && s'.options == s.options
    && s'.stopping == s.stopping && s'.stopper == s.stopper
    && s'.hist.takers == (if a.Took? then s.hist.takers + [who] else s.hist.takers)
    && (|| (s'.nextFlush == s.nextFlush && s'.hist.mark == s.hist.mark)
        || (s.nextFlush < MAX_ID && s'.nextFlush == s.nextFlush + 1 && s'.log == s.log
            && s'.hist.mark == s.hist.mark + [|s.log.items|]))
    && (a.Claimed? && a.value.FlushRequest? ==> 1 <= a.value.id <= s.nextFlush)
  }

  lemma BasicsKept(s: State, a: Action<Item>, who: Taker, s': State)
    requires Basics(s) && Grows(s, a, who, s')
    requires a.Took? && who == ByProducer ==> s.options.policy == DropOldest
    requires s'.completed <= MAX_ID
    ensures Basics(s')
  {
    AllowedKeepsWellFormed(s.log, a, s'.log);
  }

  lemma MarksKept(s: State, a: Action<Item>, who: Taker, s': State)
    requires MarksOk(s) && Grows(s, a, who, s')
    ensures MarksOk(s')
  {
  }

  /** A client that takes no step stays right unless its own ticket is published or released. */
  lemma OtherClient(s: State, a: Action<Item>, who: Taker, s': State, pc: Client)
    requires Basics(s) && Grows(s, a, who, s') && ClientOk(s, pc)
    requires a.Published? ==> !pc.Publishing(a.ticket)
    requires a.Returned? ==> !pc.Releasing(a.ticket)
    ensures ClientOk(s', pc)
  {
  }

  lemma ExclusiveKept(s: State, c: nat, a: Action<Item>, s': State)
    requires ClientsOk(s) && Exclusive(s) && Allowed(s.log, a, s'.log) && |s.hist.takers| == s.log.taken
    requires c in s.clients && c in s'.clients && s'.clients == s.clients[c := s'.clients[c]]
    requires ClientOwns(s.clients[c], a, s'.clients[c])
    ensures Exclusive(s')
  {
    forall d | d in s.clients && d != c
      ensures forall t: nat :: !(s'.clients[c].Publishing(t) && s.clients[d].Publishing(t))
      ensures forall t: nat :: !(s'.clients[c].Releasing(t) && s.clients[d].Releasing(t))
    {
      assert ClientOk(s, s.clients[d]);
    }
  }

  lemma AttendedKept(s: State, c: nat, a: Action<Item>, s': State)
    requires Attended(s) && Allowed(s.log, a, s'.log)
    requires c in s.clients && c in s'.clients && s'.clients == s.clients[c := s'.clients[c]]
    requires ClientOwns(s.clients[c], a, s'.clients[c])
    ensures Attended(s')
  {
    forall t: nat | t < |s'.log.items| && t !in s'.log.published
      ensures exists d :: d in s'.clients && s'.clients[d].Publishing(t)
    {
      if a.Claimed? && a.ticket == t {
        assert s'.clients[c].Publishing(t);
      } else {
        var d :| d in s.clients && s.clients[d].Publishing(t);
        assert s'.clients[d].Publishing(t);
      }
    }
  }

  lemma ClientsKept(s: State, c: nat, a: Action<Item>, s': State)
    requires Basics(s) && ClientsOk(s) && Exclusive(s) && Grows(s, a, ByProducer, s')
    requires c in s.clients && c in s'.clients && s'.clients == s.clients[c := s'.clients[c]]
    requires ClientOwns(s.clients[c], a, s'.clients[c]) && ClientOk(s', s'.clients[c])
    ensures ClientsOk(s')
  {
    forall d | d in s.clients && d != c ensures ClientOk(s', s.clients[d]) {
      OtherClient(s, a, ByProducer, s', s.clients[d]);
    }
  }

  /** No client releases a ticket the worker holds. */
  lemma WorkerUntouched(s: State, c: nat, a: Action<Item>, s': State)
    requires Basics(s) && WorkerOk(s) && Accounted(s) && ClientFrame(s, c, a, s')
    requires Allowed(s.log, a, s'.log) && ClientOwns(s.clients[c], a, s'.clients[c]) && ClientOk(s, s.clients[c])
    ensures WorkerOk(s')
  {
    OwnedByMembers(s.hist.takers);
    assert forall t :: t in s.Held() ==> t in OwnedBy(s.hist.takers);
  }

  lemma AccountUntouched(s: State, c: nat, a: Action<Item>, s': State)
    requires Accounted(s) && ClientFrame(s, c, a, s')
    ensures Accounted(s')
  {
    OwnedByAppend(s.hist.takers, ByProducer);
  }

  lemma ClientKeeps(s: State, c: nat, a: Action<Item>, s': State)
    requires Inv(s) && ClientStep(s, c, a, s')
    ensures Inv(s')
  {
    assert ClientOk(s, s.clients[c]);
    FrameOfClient(s, c, a, s');
    ClientEffect(s, c, a, s');
    BasicsKept(s, a, ByProducer, s');
    MarksKept(s, a, ByProducer, s');
    ExclusiveKept(s, c, a, s');
    AttendedKept(s, c, a, s');
    ClientsKept(s, c, a, s');
    WorkerUntouched(s, c, a, s');
    AccountUntouched(s, c, a, s');
  }

  // Worker steps.

  ghost predicate WorkerFrame(s: State, a: Action<Item>, s': State) {
    && s'.clients == s.clients && s'.stopping == s.stopping && s'.stopper == s.stopper
    && s'.options == s.options && s'.dropped == s.dropped && s'.nextFlush == s.nextFlush
    && s'.hist.mark == s.hist.mark && s'.hist.rejected == s.hist.rejected && s'.hist.places == s.hist.places
    && s'.hist.takers == (if a.Took? then s.hist.takers + [ByWorker] else s.hist.takers)
    && s.completed <= s'.completed
    && (s'.completed != s.completed ==> s.worker.Raise? && s'.completed == s.worker.id)
    && s.hist.done <= s'.hist.done
    && !a.Claimed? && !a.Published?
  }

  lemma GatherFrame(s: State, a: Action<Item>, s': State)
    requires s.worker.Gathering() && GatherStep(s, a, s')
    ensures WorkerFrame(s, a, s')
    ensures s'.completed == s.completed && s'.hist.done == s.hist.done
  {
  }

  lemma ProcessFrame(s: State, fair: bool, s': State)
    requires !s.worker.Gathering() && ProcessStep(s, fair, s')
    ensures WorkerFrame(s, Tau, s') && s'.log == s.log
  {
  }

  lemma GatherLog(s: State, a: Action<Item>, s': State)
    requires Basics(s) && WorkerOk(s) && Accounted(s) && s.worker.Gathering() && GatherStep(s, a, s')
    ensures Allowed(s.log, a, s'.log)
    ensures a.Returned? ==> a.ticket < |s.hist.takers| && s.hist.takers[a.ticket] == ByWorker
  {
    OwnedByMembers(s.hist.takers);
    assert forall t :: t in s.Held() ==> t in OwnedBy(s.hist.takers);
    match s.worker
    case HandRelease(t) => assert t in s.Held();
    case FillRelease(t) => assert t in s.Held();
    case DrainRelease(t) => assert t in s.Held();
    case _ =>
  }

  lemma GatherOk(s: State, a: Action<Item>, s': State)
    requires Basics(s) && WorkerOk(s) && |s.hist.lost| <= 1 && s.worker.Gathering() && GatherStep(s, a, s')
    requires s.hist.lost != [] ==> s.stopping
    ensures WorkerOk(s')
  {
  }

  lemma GatherHeld(s: State, a: Action<Item>, s': State)
    requires WorkerOk(s) && |s.hist.takers| == s.log.taken && s.worker.Gathering() && GatherStep(s, a, s')
    ensures s'.hist.lost == s.hist.lost && s'.hist.lostAt == s.hist.lostAt ==>
              s'.Held() == s.Held() + if a.Took? then [s.log.taken] else []
    ensures s'.hist.lost != s.hist.lost || s'.hist.lostAt != s.hist.lostAt ==>
              && a == Tau && s.stopping && |s.Held()| == 1 && s.hist.lost == [] && s'.hist.lost == s.Held()
              && s'.hist.lostAt == |s.hist.done| && s'.Held() == []
  {
  }

  lemma HeldAccounted(s: State, a: Action<Item>, s': State)
    requires Accounted(s) && |s.hist.takers| == s.log.taken
    requires s'.hist.takers == if a.Took? then s.hist.takers + [ByWorker] else s.hist.takers
    requires s'.hist.lost == s.hist.lost && s'.hist.lostAt == s.hist.lostAt && s'.hist.done == s.hist.done
    requires s'.stopping == s.stopping
    requires s'.Held() == s.Held() + if a.Took? then [s.log.taken] else []
    ensures Accounted(s')
  {
    OwnedByAppend(s.hist.takers, ByWorker);
    Associative(Handled(s.hist), s.Held(), if a.Took? then [s.log.taken] else []);
  }

  lemma LossAccounted(s: State, s': State)
    requires Accounted(s) && s.hist.lost == [] && s.stopping && s'.stopping && |s.Held()| == 1
    requires s'.hist.takers == s.hist.takers && s'.hist.done == s.hist.done
    requires s'.hist.lost == s.Held() && s'.hist.lostAt == |s.hist.done| && s'.Held() == []
    ensures Accounted(s')
  {
    HandledWithoutLoss(s.hist);
    assert Handled(s'.hist) == s.hist.done + s.Held();
  }

  lemma GatherAccounted(s: State, a: Action<Item>, s': State)
    requires WorkerOk(s) && Accounted(s) && |s.hist.takers| == s.log.taken
    requires s.worker.Gathering() && GatherStep(s, a, s')
    ensures Accounted(s')
  {
    GatherFrame(s, a, s');
    GatherHeld(s, a, s');
    if s'.hist.lost == s.hist.lost && s'.hist.lostAt == s.hist.lostAt {
      HeldAccounted(s, a, s');
    } else {
      LossAccounted(s, s');
    }
  }

  lemma Associative(a: seq<nat>, b: seq<nat>, c: seq<nat>)
    ensures (a + b) + c == a + (b + c)
  {
  }

  lemma ProcessOk(s: State, fair: bool, s': State)
    requires Basics(s) && WorkerOk(s) && !s.worker.Gathering() && ProcessStep(s, fair, s')
    ensures WorkerOk(s') && s'.completed <= MAX_ID
  {
  }

  lemma ProcessAccounted(s: State, fair: bool, s': State)
    requires WorkerOk(s) && Accounted(s) && !s.worker.Gathering() && ProcessStep(s, fair, s')
    ensures Accounted(s')
  {
    if s.worker.Process? && s.batch != [] {
      HandledAppend(s.hist, s.batch[0]);
      assert s.batch == [s.batch[0]] + s.batch[1..];
      Associative(Handled(s.hist), [s.batch[0]], s.batch[1..]);
    }
  }

  lemma WorkerClients(s: State, a: Action<Item>, s': State)
    requires Basics(s) && ClientsOk(s) && Exclusive(s) && Attended(s)
    requires Grows(s, a, ByWorker, s') && s'.clients == s.clients
    requires !a.Claimed? && !a.Published?
    requires a.Returned? ==> a.ticket < |s.hist.takers| && s.hist.takers[a.ticket] == ByWorker
    ensures ClientsOk(s') && Exclusive(s') && Attended(s')
  {
    forall c | c in s.clients ensures ClientOk(s', s.clients[c]) {
      assert ClientOk(s, s.clients[c]);
      OtherClient(s, a, ByWorker, s', s.clients[c]);
    }
  }

  lemma WorkerKeeps(s: State, a: Action<Item>, fair: bool, s': State)
    requires Inv(s) && WorkerStep(s, a, fair, s')
    ensures Inv(s')
    ensures WorkerFrame(s, a, s') && Allowed(s.log, a, s'.log)
  {
    if s.worker.Gathering() {
      GatherFrame(s, a, s');
      GatherLog(s, a, s');
      GatherOk(s, a, s');
      GatherAccounted(s, a, s');
    } else {
      ProcessFrame(s, fair, s');
      ProcessOk(s, fair, s');
      ProcessAccounted(s, fair, s');
    }
    BasicsKept(s, a, ByWorker, s');
    MarksKept(s, a, ByWorker, s');
    WorkerClients(s, a, s');
  }

  lemma StopperFrame(s: State, s': State)
    requires StopperStep(s, s') && s.completed <= MAX_ID && (s.stopper == Alive) == !s.stopping
    ensures s' == s.(stopping := s'.stopping, completed := s'.completed, stopper := s'.stopper)
    ensures s.completed <= s'.completed <= MAX_ID && s'.stopping
    ensures s'.completed == s.completed || s'.completed == MAX_ID
    ensures s'.stopper != Alive
  {
  }

  lemma StopperKeeps(s: State, s': State)
    requires Inv(s) && s' == s.(stopping := s'.stopping, completed := s'.completed, stopper := s'.stopper)
    requires s.completed <= s'.completed <= MAX_ID && s'.stopping && s'.stopper != Alive
    ensures Inv(s')
  {
    assert ClientsOk(s') by {
      forall c | c in s.clients ensures ClientOk(s', s.clients[c]) {
        assert ClientOk(s, s.clients[c]);
      }
    }
  }

  /** What only grows. */
  ghost predicate Extends(s: State, s': State) {
    && s.completed <= s'.completed && (s.stopping ==> s'.stopping)
    && s.log.items <= s'.log.items && s.log.published <= s'.log.published && s'.options == s.options
    && s.hist.done <= s'.hist.done && s.hist.takers <= s'.hist.takers && s.hist.mark <= s'.hist.mark
  }

  lemma ExtendsTransitive(s: State, t: State, u: State)
    requires Extends(s, t) && Extends(t, u)
    ensures Extends(s, u)
  {
  }

  lemma ClientExtends(s: State, c: nat, a: Action<Item>, s': State)
    requires Inv(s) && ClientStep(s, c, a, s')
    ensures Extends(s, s')
  {
    assert ClientOk(s, s.clients[c]);
    FrameOfClient(s, c, a, s');
    ClientEffect(s, c, a, s');
    AllowedKeepsWellFormed(s.log, a, s'.log);
  }

  lemma ClientStepKeeps(s: State, s': State)
    requires Inv(s) && AClientSteps(s, s')
    ensures Inv(s') && Extends(s, s')
  {
    var c, a :| ClientStep(s, c, a, s');
    ClientKeeps(s, c, a, s');
    ClientExtends(s, c, a, s');
  }

  lemma WorkerStepKeeps(s: State, s': State)
    requires Inv(s) && TheWorkerSteps(s, s')
    ensures Inv(s') && Extends(s, s')
  {
    var a, fair :| WorkerStep(s, a, fair, s');
    WorkerKeeps(s, a, fair, s');
    AllowedKeepsWellFormed(s.log, a, s'.log);
  }

  /**
  Every step of every thread keeps the invariant; nothing that has happened is undone, and
  completed_flush_id_ never decreases.
  */
  lemma StepKeeps(s: State, s': State)
    requires Inv(s) && Step(s, s')
    ensures Inv(s') && Extends(s, s')
  {
    if AClientSteps(s, s') {
      ClientStepKeeps(s, s');
    } else if TheWorkerSteps(s, s') {
      WorkerStepKeeps(s, s');
    } else {
      StopperFrame(s, s');
      StopperKeeps(s, s');
    }
  }

  // Runs.

  ghost predicate StepAt(states: seq<State>, k: nat) {
    k + 1 < |states| && Step(states[k], states[k + 1])
  }

  ghost predicate Run(states: seq<State>) {
    && states != [] && Init(states[0])
    && forall k: nat :: k < |states| - 1 ==> StepAt(states, k)
  }

  ghost predicate InvAt(states: seq<State>, k: nat) {
    k < |states| && Inv(states[k])
  }

  ghost predicate ExtendsAt(states: seq<State>, m: nat, n: nat) {
    m < |states| && n < |states| && Extends(states[m], states[n])
  }

  lemma StepsKeep(states: seq<State>)
    ensures forall k: nat ::
      (StepAt(states, k) && InvAt(states, k)) ==> InvAt(states, k + 1) && ExtendsAt(states, k, k + 1)
  {
    forall k: nat | StepAt(states, k) && InvAt(states, k)
      ensures InvAt(states, k + 1) && ExtendsAt(states, k, k + 1)
    {
      StepKeeps(states[k], states[k + 1]);
    }
  }

  lemma {:induction false} RunInvUpTo(states: seq<State>, n: nat)
    requires Run(states) && n < |states|
    ensures forall k: nat :: k <= n ==> InvAt(states, k)
  {
    if n == 0 {
      InitInv(states[0]);
    } else {
      RunInvUpTo(states, n - 1);
      assert StepAt(states, n - 1);
      StepsKeep(states);
    }
  }

  /** Every state of every run satisfies the invariant. */
  lemma RunInv(states: seq<State>, n: nat)
    requires Run(states) && n < |states|
    ensures Inv(states[n])
  {
    RunInvUpTo(states, n);
    assert InvAt(states, n);
  }

  /** Nothing that has happened in a run is undone later; completed_flush_id_ never decreases over it. */
  lemma {:induction false} RunExtends(states: seq<State>, m: nat, n: nat)
    requires Run(states) && m <= n < |states|
    ensures Extends(states[m], states[n])
    decreases n
  {
    if m < n {
      RunExtends(states, m, n - 1);
      RunInvUpTo(states, n - 1);
      assert StepAt(states, n - 1) && InvAt(states, n - 1);
      StepsKeep(states);
      assert ExtendsAt(states, n - 1, n);
      ExtendsTransitive(states[m], states[n - 1], states[n]);
    }
  }

  // States that some run reaches.

  ghost predicate Reachable(s: State) {
    exists states :: Run(states) && states[|states| - 1] == s
  }

  lemma ReachStep(s: State, s': State)
    requires Reachable(s) && Step(s, s')
    ensures Reachable(s')
  {
    var states :| Run(states) && states[|states| - 1] == s;
    var longer := states + [s'];
    forall k: nat | k < |longer| - 1 ensures StepAt(longer, k) {
      if k < |states| - 1 {
        assert StepAt(states, k);
      }
    }
    assert Run(longer) && longer[|longer| - 1] == s';
  }

  lemma ReachClient(s: State, c: nat, a: Action<Item>, s': State)
    requires Reachable(s) && ClientStep(s, c, a, s')
    ensures Reachable(s')
  {
    ReachStep(s, s');
  }

  lemma ReachedInv(s: State)
    requires Reachable(s)
    ensures Inv(s)
  {
    var states :| Run(states) && states[|states| - 1] == s;
    RunInv(states, |states| - 1);
  }
}
