/**
Any number of concurrent `write` calls on one GELF sink (src/sinks/gelf_udp_sink.cpp): a step machine with one step
for every system call, lock operation and piece of bookkeeping. The lock is given up during backoff, so other writers
come in between, find the socket unusable, or make it usable again.
*/
module GelfTransport {
  import opened Json
  import opened Words
  import opened GelfChunks
  import opened GelfReceiver
  import GelfSink

  datatype Pc =
    | Sending(start: nat, next: nat)  // lock held, about to send chunk `next`; the round began at `start` of the wire
    | Failed                          // lock held, failure counted
    | BackingOff                      // lock released, asleep
    | Configuring                     // lock held again, about to configure
    | Returned(start: nat)            // normally; where its round began is remembered
    | Threw                           // out of retries
    | ConfigureThrew                  // configure threw

  datatype Writer = Writer(payload: string, id: nat, chunks: seq<string>, remaining: nat, tries: nat, pc: Pc)

  datatype Lock = Free | HeldBy(w: nat)

  datatype Statistics = Statistics(attempts: nat, failures: nat, reconnects: nat)

  datatype State = State(
    limit: nat,               // max_chunk_size
    wire: seq<string>,        // every datagram accepted by ::sendto
    configured: bool, lock: Lock, writers: map<nat, Writer>, stats: Statistics)

  predicate Holds(s: State, w: nat) {
    s.lock == HeldBy(w) && w in s.writers
  }

  function Put(s: State, w: nat, pc: Pc): map<nat, Writer>
    requires w in s.writers
  {
    s.writers[w := s.writers[w].(pc := pc)]
  }

  // The steps.

  /** The chunks are made before the lock is taken. */
  predicate BeginStep(s: State, t: State, w: nat, payload: string, id: nat, retries: nat) {
    && s.lock.Free? && w !in s.writers && Outcome(payload, s.limit, id).Datagrams?
    && t == s.(lock := HeldBy(w), stats := s.stats.(attempts := s.stats.attempts + 1),
               writers := s.writers[w := Writer(payload, id, Outcome(payload, s.limit, id).parts, retries, 1,
                                                Sending(|s.wire|, 0))])
  }

  function Fail(s: State, w: nat): State
    requires w in s.writers
  {
    s.(configured := false, writers := Put(s, w, Failed), stats := s.stats.(failures := s.stats.failures + 1))
  }

  predicate SendStep(s: State, t: State, w: nat, answer: GelfSink.Answer) {
    && Holds(s, w) && s.writers[w].pc.Sending? && s.writers[w].pc.next < |s.writers[w].chunks|
    && var x := s.writers[w];
       if !s.configured || answer.Refused? then t == Fail(s, w)
       else if answer.Interrupted? then t == s
       else t == s.(wire := s.wire + [x.chunks[x.pc.next]],
                    writers := Put(s, w, Sending(x.pc.start, x.pc.next + 1)))
  }

  predicate FinishStep(s: State, t: State, w: nat) {
    && Holds(s, w) && s.writers[w].pc.Sending? && s.writers[w].pc.next == |s.writers[w].chunks|
    && t == s.(lock := Free, writers := Put(s, w, Returned(s.writers[w].pc.start)))
  }

  predicate GiveUpStep(s: State, t: State, w: nat) {
    && Holds(s, w) && s.writers[w].pc.Failed? && s.writers[w].remaining == 0
    && t == s.(lock := Free, writers := Put(s, w, Threw))
  }

  predicate BackOffStep(s: State, t: State, w: nat) {
    && Holds(s, w) && s.writers[w].pc.Failed? && s.writers[w].remaining > 0
    && t == s.(lock := Free, stats := s.stats.(reconnects := s.stats.reconnects + 1),
               writers := s.writers[w := s.writers[w].(remaining := s.writers[w].remaining - 1, pc := BackingOff)])
  }

  predicate RelockStep(s: State, t: State, w: nat) {
    && s.lock.Free? && w in s.writers && s.writers[w].pc.BackingOff?
    && t == s.(lock := HeldBy(w), writers := Put(s, w, Configuring))
  }

  predicate ConfigureStep(s: State, t: State, w: nat, ok: bool) {
    && Holds(s, w) && s.writers[w].pc.Configuring?
    && if ok then
         t == s.(configured := true,
                 writers := s.writers[w := s.writers[w].(tries := s.writers[w].tries + 1, pc := Sending(|s.wire|, 0))])
       else
         t == s.(configured := false, lock := Free, writers := Put(s, w, ConfigureThrew))
  }

  datatype Event =
    | Begin(payload: string, id: nat) | Send(answer: GelfSink.Answer) | Finish | GiveUp | BackOff | Relock
    | Configure(ok: bool)

  predicate WriterStep(s: State, t: State, w: nat, e: Event, retries: nat) {
    match e
    case Begin(payload, id) => BeginStep(s, t, w, payload, id, retries)
    case Send(answer) => SendStep(s, t, w, answer)
    case Finish => FinishStep(s, t, w)
    case GiveUp => GiveUpStep(s, t, w)
    case BackOff => BackOffStep(s, t, w)
    case Relock => RelockStep(s, t, w)
    case Configure(ok) => ConfigureStep(s, t, w, ok)
  }

  ghost predicate Step(s: State, t: State, retries: nat) {
    exists w, e :: WriterStep(s, t, w, e, retries)
  }

  /** The constructor has configured the socket. */
  predicate Init(s: State) {
    s == State(s.limit, [], true, Free, map[], Statistics(0, 0, 0))
  }

  // What every step keeps.

  predicate Active(pc: Pc) {
    pc.Sending? || pc.Failed? || pc.Configuring?
  }

  /** The lock's holder is the only writer inside the locked region. */
  ghost predicate LockInv(s: State) {
    && (s.lock.HeldBy? ==> s.lock.w in s.writers && Active(s.writers[s.lock.w].pc))
    && (forall w :: w in s.writers && Active(s.writers[w].pc) ==> s.lock == HeldBy(w))
  }

  /** Where a round stands: the first `n` chunks of `x` are on the wire from `start` on. */
  predicate OnWire(wire: seq<string>, x: Writer, start: nat, n: nat) {
    n <= |x.chunks| && start + n <= |wire| && wire[start..start + n] == x.chunks[..n]
  }

  /** A round that is under way is at the end of the wire; the rounds of returned writes are complete. */
  ghost predicate RoundInv(s: State) {
    forall w :: w in s.writers ==> RoundOk(s.wire, s.writers[w])
  }

  predicate RoundOk(wire: seq<string>, x: Writer) {
    && (x.pc.Sending? ==> OnWire(wire, x, x.pc.start, x.pc.next) && x.pc.start + x.pc.next == |wire|)
    && (x.pc.Returned? ==> OnWire(wire, x, x.pc.start, |x.chunks|))
  }

  /** Rounds of returned writes, and the one under way, do not overlap. */
  ghost predicate ApartInv(s: State) {
    forall v, w :: v in s.writers && w in s.writers && v != w ==> Apart(s.writers[v], s.writers[w])
  }

  predicate Apart(x: Writer, y: Writer) {
    && (x.pc.Returned? && y.pc.Returned? ==>
          x.pc.start + |x.chunks| <= y.pc.start || y.pc.start + |y.chunks| <= x.pc.start)
    && (x.pc.Returned? && y.pc.Sending? ==> x.pc.start + |x.chunks| <= y.pc.start)
    && (y.pc.Returned? && x.pc.Sending? ==> y.pc.start + |y.chunks| <= x.pc.start)
  }

  ghost predicate IsChunkOfOne(d: string, writers: map<nat, Writer>) {
    exists w :: w in writers && d in writers[w].chunks
  }

  /** Nothing but writers' chunks is on the wire. */
  ghost predicate WireInv(s: State) {
    forall i :: 0 <= i < |s.wire| ==> IsChunkOfOne(s.wire[i], s.writers)
  }

  ghost predicate ChunksInv(s: State) {
    forall w :: w in s.writers ==>
      var x := s.writers[w]; Outcome(x.payload, s.limit, x.id) == Datagrams(x.chunks)
  }

  ghost predicate TriesInv(s: State, retries: nat) {
    forall w :: w in s.writers ==> TriesOk(s.writers[w], retries)
  }

  predicate TriesOk(x: Writer, retries: nat) {
    && 1 <= x.tries <= retries + 1
    && (x.pc.Sending? || x.pc.Failed? ==> x.tries + x.remaining == retries + 1)
    && (x.pc.BackingOff? || x.pc.Configuring? || x.pc.ConfigureThrew? ==> x.tries + x.remaining == retries)
    && (x.pc.Threw? ==> x.tries == retries + 1)
  }

  ghost function Exhausted(s: State): set<nat> {
    set w | w in s.writers && s.writers[w].pc.Threw?
  }

  /** A failure is counted before it is known to lead to a retry or to nothing. */
  ghost predicate StatsInv(s: State) {
    && s.stats.attempts == |s.writers|
    && s.stats.failures == s.stats.reconnects + |Exhausted(s)|
       + if s.lock.HeldBy? && s.lock.w in s.writers && s.writers[s.lock.w].pc.Failed? then 1 else 0
  }

  ghost predicate Inv(s: State, retries: nat) {
    && LockInv(s) && RoundInv(s) && ApartInv(s) && WireInv(s) && ChunksInv(s) && TriesInv(s, retries) && StatsInv(s)
  }

  lemma LockKept(s: State, t: State, w: nat, e: Event, retries: nat)
    requires LockInv(s) && WriterStep(s, t, w, e, retries)
    ensures LockInv(t)
  {
  }

  lemma TriesKept(s: State, t: State, w: nat, e: Event, retries: nat)
    requires TriesInv(s, retries) && WriterStep(s, t, w, e, retries)
    ensures TriesInv(t, retries)
  {
  }

  lemma ChunksKept(s: State, t: State, w: nat, e: Event, retries: nat)
    requires ChunksInv(s) && WriterStep(s, t, w, e, retries)
    ensures ChunksInv(t) && t.limit == s.limit
  {
  }

  /** What a step of `w` leaves alone, and what it puts on the wire. */
  lemma StepFrame(s: State, t: State, w: nat, e: Event, retries: nat)
    requires WriterStep(s, t, w, e, retries)
    ensures w in t.writers && t.writers == s.writers[w := t.writers[w]]
    ensures w in s.writers ==> t.writers[w].chunks == s.writers[w].chunks
    ensures t.wire == s.wire ||
            (&& w in s.writers && s.writers[w].pc.Sending? && s.writers[w].pc.next < |s.writers[w].chunks|
             && t.wire == s.wire + [s.writers[w].chunks[s.writers[w].pc.next]])
    ensures e.Begin? <==> w !in s.writers
    ensures e.Begin? ==> s.lock.Free?
    ensures s.lock.HeldBy? ==> s.lock == HeldBy(w)
  {
  }

  lemma WireKept(s: State, t: State, w: nat, e: Event, retries: nat)
    requires WireInv(s) && WriterStep(s, t, w, e, retries)
    ensures WireInv(t)
  {
    StepFrame(s, t, w, e, retries);
    forall i | 0 <= i < |t.wire| ensures IsChunkOfOne(t.wire[i], t.writers) {
      if i < |s.wire| {
        assert t.wire[i] == s.wire[i] && IsChunkOfOne(s.wire[i], s.writers);
        var v :| v in s.writers && s.wire[i] in s.writers[v].chunks;
        assert v in t.writers && t.writers[v].chunks == s.writers[v].chunks;
      } else {
        assert t.wire[i] in t.writers[w].chunks;
      }
    }
  }

  /** What was on the wire stays. */
  lemma OnWireStays(wire: seq<string>, more: seq<string>, x: Writer, start: nat, n: nat)
    requires OnWire(wire, x, start, n) && wire <= more
    ensures OnWire(more, x, start, n)
  {
    assert more[start..start + n] == wire[start..start + n];
  }

  lemma OwnRound(s: State, t: State, w: nat, e: Event, retries: nat)
    requires RoundInv(s) && WriterStep(s, t, w, e, retries) && w in t.writers
    ensures RoundOk(t.wire, t.writers[w])
  {
    if e.Send? && t.wire != s.wire {
      var x := s.writers[w];
      assert RoundOk(s.wire, x);
      var start, next := x.pc.start, x.pc.next;
      assert t.wire[start..start + next + 1] == s.wire[start..start + next] + [x.chunks[next]];
      assert x.chunks[..next + 1] == x.chunks[..next] + [x.chunks[next]];
    } else if w in s.writers {
      assert RoundOk(s.wire, s.writers[w]);
    }
  }

  lemma RoundsKept(s: State, t: State, w: nat, e: Event, retries: nat)
    requires LockInv(s) && RoundInv(s) && WriterStep(s, t, w, e, retries)
    ensures RoundInv(t)
  {
    StepFrame(s, t, w, e, retries);
    OwnRound(s, t, w, e, retries);
    forall v | v in t.writers && v != w ensures RoundOk(t.wire, t.writers[v]) {
      assert RoundOk(s.wire, s.writers[v]);
      if s.writers[v].pc.Returned? {
        OnWireStays(s.wire, t.wire, s.writers[v], s.writers[v].pc.start, |s.writers[v].chunks|);
      }
    }
  }

  lemma ApartFrom(s: State, t: State, w: nat, e: Event, retries: nat, v: nat)
    requires LockInv(s) && RoundInv(s) && ApartInv(s) && WriterStep(s, t, w, e, retries)
    requires v in s.writers && v != w && w in t.writers
    ensures Apart(s.writers[v], t.writers[w]) && Apart(t.writers[w], s.writers[v])
  {
    assert RoundOk(s.wire, s.writers[v]);
    if w in s.writers {
      assert Apart(s.writers[v], s.writers[w]);
      assert RoundOk(s.wire, s.writers[w]);
    }
  }

  lemma ApartKept(s: State, t: State, w: nat, e: Event, retries: nat)
    requires LockInv(s) && RoundInv(s) && ApartInv(s) && WriterStep(s, t, w, e, retries)
    ensures ApartInv(t)
  {
    StepFrame(s, t, w, e, retries);
    forall v | v in s.writers && v != w
      ensures Apart(s.writers[v], t.writers[w]) && Apart(t.writers[w], s.writers[v])
    {
      ApartFrom(s, t, w, e, retries, v);
    }
  }

  lemma AddedWriter(writers: map<nat, Writer>, w: nat, x: Writer)
    ensures |writers[w := x]| == |writers| + if w in writers then 0 else 1
  {
    if w in writers {
      assert writers[w := x].Keys == writers.Keys;
    } else {
      assert writers[w := x].Keys == writers.Keys + {w};
    }
  }

  lemma ExhaustedSame(s: State, t: State, w: nat, e: Event, retries: nat)
    requires WriterStep(s, t, w, e, retries)
    ensures Exhausted(t) == if e.GiveUp? then Exhausted(s) + {w} else Exhausted(s)
    ensures e.GiveUp? ==> w !in Exhausted(s)
  {
  }

  lemma StatsKept(s: State, t: State, w: nat, e: Event, retries: nat)
    requires LockInv(s) && StatsInv(s) && WriterStep(s, t, w, e, retries)
    ensures StatsInv(t)
  {
    ExhaustedSame(s, t, w, e, retries);
    StepFrame(s, t, w, e, retries);
    AddedWriter(s.writers, w, t.writers[w]);
  }

  lemma StepKeeps(s: State, t: State, retries: nat)
    requires Inv(s, retries) && Step(s, t, retries)
    ensures Inv(t, retries) && t.limit == s.limit
  {
    var w, e :| WriterStep(s, t, w, e, retries);
    LockKept(s, t, w, e, retries);
    RoundsKept(s, t, w, e, retries);
    ApartKept(s, t, w, e, retries);
    WireKept(s, t, w, e, retries);
    ChunksKept(s, t, w, e, retries);
    TriesKept(s, t, w, e, retries);
    StatsKept(s, t, w, e, retries);
  }

  // Whole runs.

  ghost predicate Run(states: seq<State>, retries: nat) {
    && states != [] && Init(states[0])
    && forall k :: 0 <= k < |states| - 1 ==> Step(states[k], states[k + 1], retries)
  }

  lemma {:induction false} RunInv(states: seq<State>, retries: nat, k: nat)
    requires Run(states, retries) && k < |states|
    ensures Inv(states[k], retries) && states[k].limit == states[0].limit
  {
    if k > 0 {
      RunInv(states, retries, k - 1);
      StepKeeps(states[k - 1], states[k], retries);
    }
  }

  /**
  A write that has returned has all its chunks on the wire, in order and in one piece, and no two such writes share
  any of it: the rounds of one writer are never mixed with those of another.
  */
  lemma RunSends(states: seq<State>, retries: nat, k: nat, w: nat)
    requires Run(states, retries) && k < |states|
    requires w in states[k].writers && states[k].writers[w].pc.Returned?
    ensures var s, x := states[k], states[k].writers[w];
            && x.pc.start + |x.chunks| <= |s.wire| && s.wire[x.pc.start..x.pc.start + |x.chunks|] == x.chunks
            && forall v :: v in s.writers && v != w && s.writers[v].pc.Returned? ==>
                             s.writers[v].pc.start + |s.writers[v].chunks| <= x.pc.start ||
                             x.pc.start + |x.chunks| <= s.writers[v].pc.start
  {
    RunInv(states, retries, k);
    var s, x := states[k], states[k].writers[w];
    assert RoundOk(s.wire, x) && x.chunks[..|x.chunks|] == x.chunks;
    forall v | v in s.writers && v != w && s.writers[v].pc.Returned? ensures Apart(s.writers[v], x) {
    }
  }

  /** No write goes more than retries + 1 rounds, and one that runs out of retries has gone exactly that many. */
  lemma RunTries(states: seq<State>, retries: nat, k: nat, w: nat)
    requires Run(states, retries) && k < |states| && w in states[k].writers
    ensures 1 <= states[k].writers[w].tries <= retries + 1
    ensures states[k].writers[w].pc.Threw? ==> states[k].writers[w].tries == retries + 1
    ensures states[k].writers[w].pc.ConfigureThrew? ==> states[k].writers[w].tries <= retries
  {
    RunInv(states, retries, k);
    assert TriesOk(states[k].writers[w], retries);
  }

  /** Whenever the lock is free, every failure led to a backoff or to a write that ran out of retries. */
  lemma RunStatistics(states: seq<State>, retries: nat, k: nat)
    requires Run(states, retries) && k < |states| && states[k].lock.Free?
    ensures states[k].stats.failures == states[k].stats.reconnects + |Exhausted(states[k])|
    ensures states[k].stats.attempts == |states[k].writers|
  {
    RunInv(states, retries, k);
  }

  // What is counted, system call by system call.

  /** A run with its labels: who took each step, and which. */
  ghost predicate LabelledRun(states: seq<State>, ids: seq<nat>, events: seq<Event>, retries: nat) {
    && |states| == |ids| + 1 == |events| + 1 && Init(states[0])
    && forall k :: 0 <= k < |ids| ==> WriterStep(states[k], states[k + 1], ids[k], events[k], retries)
  }

  /** A send that throws: ::sendto failed other than by an interruption, or there is no socket. */
  predicate IsTrouble(s: State, e: Event) {
    e.Send? && (e.answer.Refused? || !s.configured)
  }

  function Troubles(states: seq<State>, events: seq<Event>, n: nat): nat
    requires n <= |events| < |states|
  {
    if n == 0 then 0
    else Troubles(states, events, n - 1) + if IsTrouble(states[n - 1], events[n - 1]) then 1 else 0
  }

  lemma StepCounts(s: State, t: State, w: nat, e: Event, retries: nat)
    requires WriterStep(s, t, w, e, retries)
    ensures t.stats.failures == s.stats.failures + if IsTrouble(s, e) then 1 else 0
    ensures IsTrouble(s, e) ==> !t.configured
  {
  }

  /** In every run write_failures is the number of failed sends, each of which leaves the socket closed. */
  lemma {:induction false} FailuresAreTroubles(states: seq<State>, ids: seq<nat>, events: seq<Event>, retries: nat,
                                               n: nat)
    requires LabelledRun(states, ids, events, retries) && n <= |events|
    ensures states[n].stats.failures == Troubles(states, events, n)
    ensures n > 0 && IsTrouble(states[n - 1], events[n - 1]) ==> !states[n].configured
  {
    if n > 0 {
      FailuresAreTroubles(states, ids, events, retries, n - 1);
      StepCounts(states[n - 1], states[n], ids[n - 1], events[n - 1], retries);
    }
  }

  // The receiver.

  /** Writes as the sink makes them: ids differ, and no payload sent in one piece passes for a chunk. */
  ghost predicate Proper(s: State) {
    && HEADER < s.limit
    && (forall w :: w in s.writers ==> s.writers[w].id < WORD)
    && (forall v, w :: v in s.writers && w in s.writers && v != w ==> s.writers[v].id != s.writers[w].id)
    && (forall w :: w in s.writers && |s.writers[w].payload| <= s.limit ==> !IsChunk(s.writers[w].payload))
  }

  /** A chunk on the wire with the id of a writer's message is one of its chunks. */
  lemma ChunkIsOurs(s: State, w: nat, d: string)
    requires Proper(s) && ChunksInv(s) && w in s.writers
    requires IsChunkOfOne(d, s.writers) && IsChunk(d) && IdOf(d) == IdBytes(s.writers[w].id)
    ensures d in s.writers[w].chunks
  {
    var v :| v in s.writers && d in s.writers[v].chunks;
    var x := s.writers[v];
    if |x.payload| > s.limit {
      var i :| 0 <= i < |x.chunks| && x.chunks[i] == d;
      ChunkParts(x.payload, s.limit - HEADER, x.id, |x.chunks|, i);
      IdBytesInjective(x.id, s.writers[w].id);
    }
  }

  lemma ArrivalsAreOurs(s: State, w: nat, arrivals: seq<string>)
    requires Proper(s) && ChunksInv(s) && WireInv(s) && w in s.writers
    requires forall d :: d in arrivals ==> d in s.wire
    ensures IdIsOurs(arrivals, s.writers[w].id, s.writers[w].chunks)
  {
    forall i | 0 <= i < |arrivals| && IsChunk(arrivals[i]) && IdOf(arrivals[i]) == IdBytes(s.writers[w].id)
      ensures arrivals[i] in s.writers[w].chunks
    {
      assert arrivals[i] in arrivals;
      var j :| 0 <= j < |s.wire| && s.wire[j] == arrivals[i];
      assert IsChunkOfOne(s.wire[j], s.writers);
      ChunkIsOurs(s, w, arrivals[i]);
    }
  }

  lemma ChunksAre(s: State, w: nat)
    requires HEADER < s.limit && ChunksInv(s) && w in s.writers && |s.writers[w].payload| > s.limit
    ensures s.writers[w].chunks == Chunks(s.writers[w].payload, s.limit - HEADER, s.writers[w].id)
  {
  }

  predicate AllCame(chunks: seq<string>, arrivals: seq<string>) {
    forall d :: d in chunks ==> d in arrivals
  }

  lemma Rebuilds(chunks: seq<string>, payload: string, m: nat, id: nat, arrivals: seq<string>)
    requires m > 0 && payload != "" && chunks == Chunks(payload, m, id) && IdIsOurs(arrivals, id, chunks)
    ensures Rebuilt(ReceiveAll(arrivals), IdBytes(id)) ==
            if AllCame(chunks, arrivals) then Some(Carried(payload, m)) else None
  {
    Reassembled(arrivals, payload, m, id);
  }

  lemma WriteRebuilds(s: State, w: nat, arrivals: seq<string>)
    requires Proper(s) && ChunksInv(s) && WireInv(s) && w in s.writers && |s.writers[w].payload| > s.limit
    requires forall d :: d in arrivals ==> d in s.wire
    ensures var x := s.writers[w];
            Rebuilt(ReceiveAll(arrivals), IdBytes(x.id)) ==
            if AllCame(x.chunks, arrivals) then Some(Carried(x.payload, s.limit - HEADER)) else None
  {
    var x := s.writers[w];
    ArrivalsAreOurs(s, w, arrivals);
    ChunksAre(s, w);
    Rebuilds(x.chunks, x.payload, s.limit - HEADER, x.id, arrivals);
  }

  lemma RunWire(states: seq<State>, retries: nat, k: nat)
    requires Run(states, retries) && k < |states|
    ensures ChunksInv(states[k]) && WireInv(states[k])
  {
    RunInv(states, retries, k);
  }

  /**
  The receiver gets the datagrams on the wire in any order, repeated or lost. For every write that chunked its
  payload, however many writers there were and whatever failed: it has the payload exactly when all its chunks came.
  */
  lemma ArrivalsRebuild(states: seq<State>, retries: nat, k: nat, arrivals: seq<string>, w: nat)
    requires Run(states, retries) && k < |states| && Proper(states[k])
    requires w in states[k].writers && |states[k].writers[w].payload| > states[k].limit
    requires forall d :: d in arrivals ==> d in states[k].wire
    ensures var s, x := states[k], states[k].writers[w];
            Rebuilt(ReceiveAll(arrivals), IdBytes(x.id)) ==
            if AllCame(x.chunks, arrivals) then Some(Carried(x.payload, s.limit - HEADER)) else None
  {
    RunWire(states, retries, k);
    WriteRebuilds(states[k], w, arrivals);
  }

  /** If nothing is lost on the way, every write that returned has its payload at the receiver. */
  lemma ReturnedWritesArrive(states: seq<State>, retries: nat, k: nat, arrivals: seq<string>, w: nat)
    requires Run(states, retries) && k < |states| && Proper(states[k])
    requires w in states[k].writers && |states[k].writers[w].payload| > states[k].limit
    requires states[k].writers[w].pc.Returned?
    requires forall d :: d in arrivals <==> d in states[k].wire
    ensures Rebuilt(ReceiveAll(arrivals), IdBytes(states[k].writers[w].id)) ==
            Some(Carried(states[k].writers[w].payload, states[k].limit - HEADER))
  {
    RunSends(states, retries, k, w);
    ArrivalsRebuild(states, retries, k, arrivals, w);
    var s, x := states[k], states[k].writers[w];
    forall d | d in x.chunks ensures d in s.wire {
      assert d in s.wire[x.pc.start..x.pc.start + |x.chunks|];
    }
  }
}
