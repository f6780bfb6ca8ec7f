/**
Any number of concurrent `write` calls on one TCP sink (src/sinks/tcp_json_lines_sink.cpp, and the same loop in
src/sinks/otlp_http_sink.cpp): a step machine with one step for every system call, lock operation and piece of
bookkeeping. The lock is given up during backoff, so other writers come in between.
*/
module Transport {
  import opened Text

  datatype Pc =
    | Ensuring                        // lock held, before ensure_connected
    | Sending(offset: nat)            // lock held, in send_all
    | Failed                          // lock held, failure counted
    | BackingOff                      // lock released, asleep
    | Returned(conn: nat, pos: nat)   // normally; where its payload ended up is remembered
    | Threw

  datatype Writer = Writer(payload: string, remaining: nat, tries: nat, pc: Pc)

  /**
  One connection: the bytes sent on it, and how they came about: payloads sent to the end, by writer, then a part
  of the payload `whole`.
  */
  datatype Connection = Connection(stream: string, complete: seq<nat>, tail: string, whole: string)

  datatype Lock = Free | HeldBy(w: nat)

  datatype Statistics = Statistics(attempts: nat, failures: nat, reconnects: nat)

  datatype State = State(
    conns: seq<Connection>, connected: bool, lock: Lock, writers: map<nat, Writer>, stats: Statistics)

  /** What ::send may answer. */
  datatype Answer = Interrupted | Took(n: nat) | Refused

  function Put(s: State, w: nat, pc: Pc): map<nat, Writer>
    requires w in s.writers
  {
    s.writers[w := s.writers[w].(pc := pc)]
  }

  function Current(s: State): Connection
    requires s.conns != []
  {
    s.conns[|s.conns| - 1]
  }

  function SetCurrent(s: State, c: Connection): seq<Connection>
    requires s.conns != []
  {
    s.conns[|s.conns| - 1 := c]
  }

  predicate Holds(s: State, w: nat) {
    s.lock == HeldBy(w) && w in s.writers
  }

  // The steps.

  function Fail(s: State, w: nat): State
    requires w in s.writers
  {
    s.(connected := false, writers := Put(s, w, Failed), stats := s.stats.(failures := s.stats.failures + 1))
  }

  predicate BeginStep(s: State, t: State, w: nat, payload: string, retries: nat) {
    && s.lock.Free? && w !in s.writers
    && t == s.(lock := HeldBy(w), writers := s.writers[w := Writer(payload, retries, 1, Ensuring)],
               stats := s.stats.(attempts := s.stats.attempts + 1))
  }

  predicate EnsureStep(s: State, t: State, w: nat, connects: bool) {
    && Holds(s, w) && s.writers[w].pc.Ensuring?
    && if s.connected then
         && s.conns != []
         && t == s.(conns := SetCurrent(s, Current(s).(whole := s.writers[w].payload)),
                    writers := Put(s, w, Sending(0)))
       else if connects then
         t == s.(conns := s.conns + [Connection("", [], "", s.writers[w].payload)], connected := true,
                 writers := Put(s, w, Sending(0)))
       else t == Fail(s, w)
  }

  predicate SendStep(s: State, t: State, w: nat, answer: Answer) {
    && Holds(s, w) && s.writers[w].pc.Sending? && s.conns != []
    && var p, k, c := s.writers[w].payload, s.writers[w].pc.offset, Current(s);
       && k < |p|
       && match answer
          case Interrupted => t == s
          case Refused => t == Fail(s, w)
          case Took(n) =>
            if n == 0 then t == Fail(s, w)
            else
              && n <= |p| - k
              && t == s.(conns := SetCurrent(s, c.(stream := c.stream + p[k..k + n], tail := c.tail + p[k..k + n])),
                         writers := Put(s, w, Sending(k + n)))
  }

  predicate FinishStep(s: State, t: State, w: nat) {
    && Holds(s, w) && s.writers[w].pc.Sending? && s.conns != []
    && s.writers[w].pc.offset == |s.writers[w].payload|
    && var c := Current(s);
       t == s.(conns := SetCurrent(s, c.(complete := c.complete + [w], tail := "")), lock := Free,
               writers := Put(s, w, Returned(|s.conns| - 1, |c.complete|)))
  }

  predicate GiveUpStep(s: State, t: State, w: nat) {
    && Holds(s, w) && s.writers[w].pc.Failed? && s.writers[w].remaining == 0
    && t == s.(lock := Free, writers := Put(s, w, Threw))
  }

  predicate BackOffStep(s: State, t: State, w: nat) {
    && Holds(s, w) && s.writers[w].pc.Failed? && s.writers[w].remaining > 0
    && t == s.(lock := Free, connected := false, stats := s.stats.(reconnects := s.stats.reconnects + 1),
               writers := s.writers[w := s.writers[w].(remaining := s.writers[w].remaining - 1, pc := BackingOff)])
  }

  predicate RelockStep(s: State, t: State, w: nat) {
    && s.lock.Free? && w in s.writers && s.writers[w].pc.BackingOff?
    && t == s.(lock := HeldBy(w),
               writers := s.writers[w := s.writers[w].(tries := s.writers[w].tries + 1, pc := Ensuring)])
  }

  datatype Event =
    | Begin(payload: string) | Ensure(connects: bool) | Send(answer: Answer) | Finish | GiveUp | BackOff | Relock

  predicate WriterStep(s: State, t: State, w: nat, e: Event, retries: nat) {
    match e
    case Begin(payload) => BeginStep(s, t, w, payload, retries)
    case Ensure(connects) => EnsureStep(s, t, w, connects)
    case Send(answer) => SendStep(s, t, w, answer)
    case Finish => FinishStep(s, t, w)
    case GiveUp => GiveUpStep(s, t, w)
    case BackOff => BackOffStep(s, t, w)
    case Relock => RelockStep(s, t, w)
  }

  ghost predicate Step(s: State, t: State, retries: nat) {
    exists w, e :: WriterStep(s, t, w, e, retries)
  }

  /** After construction: not connected with lazy_connect, otherwise with one fresh connection. */
  predicate Init(s: State) {
    || s == State([], false, Free, map[], Statistics(0, 0, 0))
    || s == State([Connection("", [], "", "")], true, Free, map[], Statistics(0, 0, 0))
  }

  // What every step keeps.

  predicate Active(pc: Pc) {
    pc.Ensuring? || pc.Sending? || pc.Failed?
  }

  /** The lock's holder is the only writer inside the locked region. */
  ghost predicate LockInv(s: State) {
    && (s.lock.HeldBy? ==> s.lock.w in s.writers && Active(s.writers[s.lock.w].pc))
    && (forall w :: w in s.writers && Active(s.writers[w].pc) ==> s.lock == HeldBy(w))
  }

  predicate CutOff(c: Connection) {
    c.tail == "" || c.tail < c.whole
  }

  /** The open connection holds whole payloads, and of the one being sent exactly what send_all has got through. */
  ghost predicate OpenInv(s: State) {
    && (s.connected ==> s.conns != [])
    && (forall i :: 0 <= i < |s.conns| - (if s.connected then 1 else 0) ==> CutOff(s.conns[i]))
    && (if s.lock.HeldBy? && s.lock.w in s.writers && s.writers[s.lock.w].pc.Sending? then
          && s.connected && s.conns != []
          && var p, k := s.writers[s.lock.w].payload, s.writers[s.lock.w].pc.offset;
             k <= |p| && Current(s).tail == p[..k] && Current(s).whole == p
        else s.connected && s.conns != [] ==> Current(s).tail == "")
    && (s.lock.HeldBy? && s.lock.w in s.writers && s.writers[s.lock.w].pc.Failed? ==> !s.connected)
  }

  /** The payloads of these writers, one after the other. */
  function Payloads(writers: map<nat, Writer>, ws: seq<nat>): seq<string> {
    seq(|ws|, i requires 0 <= i < |ws| => if ws[i] in writers then writers[ws[i]].payload else "")
  }

  ghost predicate StreamInv(s: State) {
    forall i :: 0 <= i < |s.conns| ==> Accounts(s.conns[i], s.writers)
  }

  /** What was being sent last on a connection, if anything, was some writer's payload. */
  ghost predicate WholeInv(s: State) {
    forall i :: 0 <= i < |s.conns| ==> NoneOrPayload(s.conns[i].whole, s.writers)
  }

  ghost predicate NoneOrPayload(p: string, writers: map<nat, Writer>) {
    p == "" || IsPayload(p, writers)
  }

  ghost predicate IsPayload(p: string, writers: map<nat, Writer>) {
    exists v :: v in writers && writers[v].payload == p
  }

  /** Writers that have returned and payloads sent to the end are the same, one for one. */
  ghost predicate HomeInv(s: State) {
    && (forall i, j :: 0 <= i < |s.conns| && 0 <= j < |s.conns[i].complete| ==> Arrived(s, i, j))
    && (forall w :: w in s.writers && s.writers[w].pc.Returned? ==> HasHome(s, w))
  }

  predicate Arrived(s: State, i: nat, j: nat)
    requires i < |s.conns| && j < |s.conns[i].complete|
  {
    var w := s.conns[i].complete[j];
    w in s.writers && s.writers[w].pc == Returned(i, j)
  }

  predicate HasHome(s: State, w: nat)
    requires w in s.writers && s.writers[w].pc.Returned?
  {
    var i, j := s.writers[w].pc.conn, s.writers[w].pc.pos;
    i < |s.conns| && j < |s.conns[i].complete| && s.conns[i].complete[j] == w
  }

  ghost predicate TriesInv(s: State, retries: nat) {
    forall w :: w in s.writers ==>
      var x := s.writers[w];
      && (Active(x.pc) ==> x.tries + x.remaining == retries + 1)
      && (x.pc.BackingOff? ==> x.tries + x.remaining == retries)
      && (x.pc.Threw? ==> x.tries == retries + 1)
      && 1 <= x.tries <= retries + 1
  }

  /** Writers that ran out of retries. */
  ghost function Exhausted(s: State): set<nat> {
    set w | w in s.writers && s.writers[w].pc.Threw?
  }

  /** A failure is counted before it is known to lead to a retry or to nothing. */
  ghost predicate StatsInv(s: State) {
    && s.stats.attempts == |s.writers|
    && s.stats.failures == s.stats.reconnects + |Exhausted(s)|
       + if s.lock.HeldBy? && s.lock.w in s.writers && s.writers[s.lock.w].pc.Failed? then 1 else 0
  }

  ghost predicate Inv(s: State, retries: nat) {
    LockInv(s) && OpenInv(s) && StreamInv(s) && WholeInv(s) && HomeInv(s) && TriesInv(s, retries) && StatsInv(s)
  }

  lemma LockKept(s: State, t: State, w: nat, e: Event, retries: nat)
    requires LockInv(s) && WriterStep(s, t, w, e, retries)
    ensures LockInv(t)
  {
  }

  lemma TriesKept(s: State, t: State, w: nat, e: Event, retries: nat)
    requires TriesInv(s, retries) && WriterStep(s, t, w, e, retries)
    ensures TriesInv(t, retries)
  {
  }

  lemma OpenKept(s: State, t: State, w: nat, e: Event, retries: nat)
    requires LockInv(s) && OpenInv(s) && WriterStep(s, t, w, e, retries)
    ensures OpenInv(t)
  {
    if e.Send? && e.answer.Took? && e.answer.n > 0 {
      var p, k, n := s.writers[w].payload, s.writers[w].pc.offset, e.answer.n;
      assert p[..k] + p[k..k + n] == p[..k + n];
    }
  }

  /** Steps that finish no payload leave the lists of finished ones alone. */
  lemma CompleteSame(s: State, t: State, w: nat, e: Event, retries: nat)
    requires WriterStep(s, t, w, e, retries) && !e.Finish?
    ensures |s.conns| <= |t.conns|
    ensures forall i :: 0 <= i < |t.conns| ==>
      t.conns[i].complete == if i < |s.conns| then s.conns[i].complete else []
    ensures forall v :: v in s.writers ==> v in t.writers && t.writers[v].payload == s.writers[v].payload
    ensures forall v :: v in t.writers && v != w ==> v in s.writers && t.writers[v].pc == s.writers[v].pc
    ensures w in s.writers ==> !s.writers[w].pc.Returned?
    ensures w in t.writers && !t.writers[w].pc.Returned?
  {
  }

  lemma HomeKeptOther(s: State, t: State, w: nat, e: Event, retries: nat)
    requires HomeInv(s) && WriterStep(s, t, w, e, retries) && !e.Finish?
    ensures HomeInv(t)
  {
    CompleteSame(s, t, w, e, retries);
    forall i, j | 0 <= i < |t.conns| && 0 <= j < |t.conns[i].complete| ensures Arrived(t, i, j) {
      assert Arrived(s, i, j);
    }
    forall v | v in t.writers && t.writers[v].pc.Returned? ensures HasHome(t, v) {
      assert HasHome(s, v);
    }
  }

  lemma HomeKeptFinish(s: State, t: State, w: nat)
    requires HomeInv(s) && FinishStep(s, t, w)
    ensures HomeInv(t)
  {
    var last := |s.conns| - 1;
    forall i, j | 0 <= i < |t.conns| && 0 <= j < |t.conns[i].complete| ensures Arrived(t, i, j) {
      if i < last || j < |s.conns[last].complete| {
        assert t.conns[i].complete[j] == s.conns[i].complete[j];
        assert Arrived(s, i, j);
      }
    }
    forall v | v in t.writers && t.writers[v].pc.Returned? ensures HasHome(t, v) {
      if v != w {
        assert HasHome(s, v);
      }
    }
  }

  lemma PayloadsSame(before: map<nat, Writer>, after: map<nat, Writer>, ws: seq<nat>)
    requires forall j :: 0 <= j < |ws| ==>
      ws[j] in before && ws[j] in after && before[ws[j]].payload == after[ws[j]].payload
    ensures Payloads(before, ws) == Payloads(after, ws)
  {
  }

  /** A connection's record holds of it whatever becomes of the writers. */
  ghost predicate Accounts(c: Connection, writers: map<nat, Writer>) {
    && (forall j :: 0 <= j < |c.complete| ==> c.complete[j] in writers)
    && c.stream == Concat(Payloads(writers, c.complete)) + c.tail
  }

  ghost predicate Retains(before: map<nat, Writer>, after: map<nat, Writer>) {
    forall v :: v in before ==> v in after && after[v].payload == before[v].payload
  }

  lemma AccountsKept(c: Connection, before: map<nat, Writer>, after: map<nat, Writer>)
    requires Accounts(c, before) && Retains(before, after)
    ensures Accounts(c, after)
  {
    PayloadsSame(before, after, c.complete);
  }

  lemma AccountsGrow(c: Connection, writers: map<nat, Writer>, more: string)
    requires Accounts(c, writers)
    ensures Accounts(c.(stream := c.stream + more, tail := c.tail + more), writers)
  {
    assert Concat(Payloads(writers, c.complete)) + c.tail + more
        == Concat(Payloads(writers, c.complete)) + (c.tail + more);
  }

  lemma AccountsFinish(c: Connection, writers: map<nat, Writer>, w: nat)
    requires Accounts(c, writers) && w in writers && writers[w].payload == c.tail
    ensures Accounts(c.(complete := c.complete + [w], tail := ""), writers)
  {
    assert Payloads(writers, c.complete + [w]) == Payloads(writers, c.complete) + [c.tail];
    ConcatAppend(Payloads(writers, c.complete), [c.tail]);
    ConcatOne(c.tail);
    assert c.stream + "" == c.stream;
  }

  lemma StepRetains(s: State, t: State, w: nat, e: Event, retries: nat)
    requires WriterStep(s, t, w, e, retries)
    ensures Retains(s.writers, t.writers)
  {
  }

  /** Only the last connection changes, and a new one starts empty. */
  ghost predicate OnlyLastChanges(before: seq<Connection>, after: seq<Connection>) {
    && |before| <= |after| <= |before| + 1
    && (forall i :: 0 <= i < |before| - 1 ==> after[i] == before[i])
    && (|after| > |before| ==>
          after[|before|].stream == "" && after[|before|].complete == [] && after[|before|].tail == "")
  }

  lemma StepChangesLast(s: State, t: State, w: nat, e: Event, retries: nat)
    requires WriterStep(s, t, w, e, retries)
    ensures OnlyLastChanges(s.conns, t.conns)
  {
  }

  lemma AllAccount(before: seq<Connection>, after: seq<Connection>, writers: map<nat, Writer>)
    requires OnlyLastChanges(before, after)
    requires forall i :: 0 <= i < |before| ==> Accounts(before[i], writers)
    requires before != [] ==> Accounts(after[|before| - 1], writers)
    ensures forall i :: 0 <= i < |after| ==> Accounts(after[i], writers)
  {
    assert Payloads(writers, []) == [];
  }

  lemma StreamKept(s: State, t: State, w: nat, e: Event, retries: nat)
    requires LockInv(s) && OpenInv(s) && StreamInv(s) && WriterStep(s, t, w, e, retries)
    ensures StreamInv(t)
  {
    StepRetains(s, t, w, e, retries);
    StepChangesLast(s, t, w, e, retries);
    AllKept(s.conns, s.writers, t.writers);
    if s.conns != [] {
      LastAccounts(s, t, w, e, retries);
    }
    AllAccount(s.conns, t.conns, t.writers);
  }

  lemma AllKept(conns: seq<Connection>, before: map<nat, Writer>, after: map<nat, Writer>)
    requires Retains(before, after) && forall i :: 0 <= i < |conns| ==> Accounts(conns[i], before)
    ensures forall i :: 0 <= i < |conns| ==> Accounts(conns[i], after)
  {
    forall i | 0 <= i < |conns| ensures Accounts(conns[i], after) {
      AccountsKept(conns[i], before, after);
    }
  }

  lemma LastAccounts(s: State, t: State, w: nat, e: Event, retries: nat)
    requires LockInv(s) && OpenInv(s) && WriterStep(s, t, w, e, retries)
    requires s.conns != [] && Accounts(Current(s), t.writers)
    ensures Accounts(t.conns[|s.conns| - 1], t.writers)
  {
    var c := Current(s);
    if e.Send? && e.answer.Took? && e.answer.n > 0 {
      var p, k := s.writers[w].payload, s.writers[w].pc.offset;
      AccountsGrow(c, t.writers, p[k..k + e.answer.n]);
    } else if e.Finish? {
      var p := s.writers[w].payload;
      assert p[..|p|] == p;
      AccountsFinish(c, t.writers, w);
    }
  }

  lemma WholeKept(s: State, t: State, w: nat, e: Event, retries: nat)
    requires WholeInv(s) && WriterStep(s, t, w, e, retries)
    ensures WholeInv(t)
  {
    StepRetains(s, t, w, e, retries);
    forall i | 0 <= i < |t.conns| ensures NoneOrPayload(t.conns[i].whole, t.writers) {
      WholeFrom(s, t, w, e, retries, i);
      if i < |s.conns| && t.conns[i].whole == s.conns[i].whole && s.conns[i].whole != "" {
        var v :| v in s.writers && s.writers[v].payload == s.conns[i].whole;
        assert v in t.writers && t.writers[v].payload == s.conns[i].whole;
      }
    }
  }

  lemma WholeFrom(s: State, t: State, w: nat, e: Event, retries: nat, i: nat)
    requires WriterStep(s, t, w, e, retries) && i < |t.conns|
    ensures (i < |s.conns| && t.conns[i].whole == s.conns[i].whole)
            || (w in t.writers && t.conns[i].whole == t.writers[w].payload)
  {
  }

  lemma ExhaustedSame(s: State, t: State, w: nat, e: Event, retries: nat)
    requires WriterStep(s, t, w, e, retries)
    ensures Exhausted(t) == if e.GiveUp? then Exhausted(s) + {w} else Exhausted(s)
    ensures e.GiveUp? ==> w !in Exhausted(s)
  {
  }

  lemma AddedWriter(writers: map<nat, Writer>, w: nat, x: Writer)
    ensures |writers[w := x]| == |writers| + if w in writers then 0 else 1
  {
    if w in writers {
      assert writers[w := x].Keys == writers.Keys;
    } else {
      assert writers[w := x].Keys == writers.Keys + {w};
    }
  }

  lemma WritersSame(s: State, t: State, w: nat, e: Event, retries: nat)
    requires WriterStep(s, t, w, e, retries)
    ensures |t.writers| == |s.writers| + if e.Begin? then 1 else 0
  {
    if w in t.writers {
      AddedWriter(s.writers, w, t.writers[w]);
      assert t.writers == s.writers[w := t.writers[w]];
    }
  }

  lemma StatsKept(s: State, t: State, w: nat, e: Event, retries: nat)
    requires LockInv(s) && StatsInv(s) && WriterStep(s, t, w, e, retries)
    ensures StatsInv(t)
  {
    ExhaustedSame(s, t, w, e, retries);
    WritersSame(s, t, w, e, retries);
  }

  lemma StepKeeps(s: State, t: State, retries: nat)
    requires Inv(s, retries) && Step(s, t, retries)
    ensures Inv(t, retries)
  {
    var w, e :| WriterStep(s, t, w, e, retries);
    LockKept(s, t, w, e, retries);
    OpenKept(s, t, w, e, retries);
    StreamKept(s, t, w, e, retries);
    WholeKept(s, t, w, e, retries);
    if e.Finish? {
      HomeKeptFinish(s, t, w);
    } else {
      HomeKeptOther(s, t, w, e, retries);
    }
    TriesKept(s, t, w, e, retries);
    StatsKept(s, t, w, e, retries);
  }

  // Whole runs.

  ghost predicate Run(states: seq<State>, retries: nat) {
    && states != [] && Init(states[0])
    && forall k :: 0 <= k < |states| - 1 ==> Step(states[k], states[k + 1], retries)
  }

  lemma InitInv(s: State, retries: nat)
    requires Init(s)
    ensures Inv(s, retries)
  {
    assert Payloads(s.writers, []) == [];
  }

  lemma {:induction false} RunInv(states: seq<State>, retries: nat, k: nat)
    requires Run(states, retries) && k < |states|
    ensures Inv(states[k], retries)
  {
    if k == 0 {
      InitInv(states[0], retries);
    } else {
      RunInv(states, retries, k - 1);
      StepKeeps(states[k - 1], states[k], retries);
    }
  }

  /** The bytes of a connection: payloads in one piece, then at most a cut-off one, and that only where it ends. */
  ghost predicate WellFramed(s: State, i: nat)
    requires i < |s.conns|
  {
    var c := s.conns[i];
    && c.stream == Concat(Payloads(s.writers, c.complete)) + c.tail
    && (c.tail != "" ==>
          && IsPayload(c.whole, s.writers)
          && if s.connected && i == |s.conns| - 1 then s.lock.HeldBy? && c.tail <= c.whole else c.tail < c.whole)
  }

  lemma RunStreams(states: seq<State>, retries: nat, k: nat, i: nat)
    requires Run(states, retries) && k < |states| && i < |states[k].conns|
    ensures WellFramed(states[k], i)
  {
    RunInv(states, retries, k);
    var s := states[k];
    assert Accounts(s.conns[i], s.writers);
    assert NoneOrPayload(s.conns[i].whole, s.writers);
  }

  /**
  A write that has returned has its payload whole on exactly one connection, once; a payload that is whole on a
  connection belongs to a write that has returned.
  */
  lemma RunDelivers(states: seq<State>, retries: nat, k: nat, w: nat)
    requires Run(states, retries) && k < |states|
    ensures var s := states[k];
            && (w in s.writers && s.writers[w].pc.Returned? ==>
                  var i, j := s.writers[w].pc.conn, s.writers[w].pc.pos;
                  i < |s.conns| && j < |s.conns[i].complete| && s.conns[i].complete[j] == w)
            && (forall i, j :: 0 <= i < |s.conns| && 0 <= j < |s.conns[i].complete| && s.conns[i].complete[j] == w ==>
                  w in s.writers && s.writers[w].pc == Returned(i, j))
  {
    RunInv(states, retries, k);
    var s := states[k];
    if w in s.writers && s.writers[w].pc.Returned? {
      assert HasHome(s, w);
    }
    forall i, j | 0 <= i < |s.conns| && 0 <= j < |s.conns[i].complete| && s.conns[i].complete[j] == w
      ensures w in s.writers && s.writers[w].pc == Returned(i, j)
    {
      assert Arrived(s, i, j);
    }
  }

  /** No write tries more than retries + 1 times, and one that throws has tried exactly that often. */
  lemma RunTries(states: seq<State>, retries: nat, k: nat, w: nat)
    requires Run(states, retries) && k < |states| && w in states[k].writers
    ensures 1 <= states[k].writers[w].tries <= retries + 1
    ensures states[k].writers[w].pc.Threw? ==> states[k].writers[w].tries == retries + 1
  {
    RunInv(states, retries, k);
  }

  /** Whenever the lock is free, every failure led to a reconnect or to a write that ran out of retries. */
  lemma RunStatistics(states: seq<State>, retries: nat, k: nat)
    requires Run(states, retries) && k < |states| && states[k].lock.Free?
    ensures states[k].stats.failures == states[k].stats.reconnects + |Exhausted(states[k])|
    ensures states[k].stats.attempts == |states[k].writers|
  {
    RunInv(states, retries, k);
  }

  /** A connection is made only when there is none, and given up only after a failure. */
  ghost predicate Connections(s: State) {
    |s.conns| + (if s.connected then 0 else 1) <= s.stats.failures + 1
  }

  lemma ConnectionsKept(s: State, t: State, w: nat, e: Event, retries: nat)
    requires LockInv(s) && OpenInv(s) && Connections(s) && WriterStep(s, t, w, e, retries)
    ensures Connections(t)
  {
  }

  /** In any run there is at most one connection more than there were failures: a healthy one is used again. */
  lemma {:induction false} RunConnections(states: seq<State>, retries: nat, k: nat)
    requires Run(states, retries) && k < |states|
    ensures |states[k].conns| <= states[k].stats.failures + 1 && Connections(states[k])
  {
    if k > 0 {
      RunConnections(states, retries, k - 1);
      RunInv(states, retries, k - 1);
      var w, e :| WriterStep(states[k - 1], states[k], w, e, retries);
      ConnectionsKept(states[k - 1], states[k], w, e, retries);
    }
  }

  // What is counted, system call by system call.

  /** A run with its labels: who took each step, and which. */
  ghost predicate LabelledRun(states: seq<State>, ids: seq<nat>, events: seq<Event>, retries: nat) {
    && |states| == |ids| + 1 == |events| + 1 && Init(states[0])
    && forall k :: 0 <= k < |ids| ==> WriterStep(states[k], states[k + 1], ids[k], events[k], retries)
  }

  /** A system call that fails: ::send other than by an interruption, or connecting. */
  predicate IsTrouble(s: State, e: Event) {
    || (e.Send? && (e.answer == Refused || e.answer == Took(0)))
    || (e.Ensure? && !s.connected && !e.connects)
  }

  function Troubles(states: seq<State>, events: seq<Event>, n: nat): nat
    requires n <= |events| < |states|
  {
    if n == 0 then 0
    else Troubles(states, events, n - 1) + if IsTrouble(states[n - 1], events[n - 1]) then 1 else 0
  }

  lemma StepCounts(s: State, t: State, w: nat, e: Event, retries: nat)
    requires WriterStep(s, t, w, e, retries)
    ensures t.stats.failures == s.stats.failures + if IsTrouble(s, e) then 1 else 0
    ensures IsTrouble(s, e) ==> w in t.writers && t.writers[w].pc == Failed && !t.connected
  {
  }

  /** In every run write_failures is the number of failed system calls, each of which closes the connection. */
  lemma {:induction false} FailuresAreTroubles(states: seq<State>, ids: seq<nat>, events: seq<Event>, retries: nat,
                                               n: nat)
    requires LabelledRun(states, ids, events, retries) && n <= |events|
    ensures states[n].stats.failures == Troubles(states, events, n)
    ensures n > 0 && IsTrouble(states[n - 1], events[n - 1]) ==> !states[n].connected
  {
    if n > 0 {
      FailuresAreTroubles(states, ids, events, retries, n - 1);
      StepCounts(states[n - 1], states[n], ids[n - 1], events[n - 1], retries);
    }
  }
}
