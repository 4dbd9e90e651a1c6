/** internal/agent/logger.go: the lock-protected log buffer and its batch drain. */
module LiveLogger {
  import opened Basics

  const BATCH_SIZE := 10
  const MAX_BATCH := 200
  const FLUSH_INTERVAL_MS := 500

  datatype LogEntry = LogEntry(level: string, message: string)

  /** The fields guarded by the mutex. */
  datatype Guarded = Guarded(buffer: seq<LogEntry>, messages: seq<string>, lastFlush: int)

  /** What Emit does before it takes the lock: blank messages are dropped, a blank level is "info". */
  function Accept(level: string, message: string): Option<LogEntry> {
    var text := TrimSpace(message);
    if text == "" then None
    else Some(LogEntry(if TrimSpace(level) == "" then "info" else level, text))
  }

  /** Emit's critical section. */
  function Appended(g: Guarded, e: LogEntry): Guarded {
    g.(buffer := g.buffer + [e], messages := g.messages + [e.message])
  }

  predicate ShouldFlush(g: Guarded, now: int) {
    |g.buffer| >= BATCH_SIZE || now - g.lastFlush >= FLUSH_INTERVAL_MS
  }

  function BatchLength(buffer: seq<LogEntry>): nat {
    if |buffer| < MAX_BATCH then |buffer| else MAX_BATCH
  }

  /** One critical section of Flush: the batch cut off (empty when there is nothing to send). */
  function Taken(g: Guarded, now: int): (Guarded, seq<LogEntry>) {
    var n := BatchLength(g.buffer);
    (g.(buffer := g.buffer[n..], lastFlush := now), g.buffer[..n])
  }

  // ---- any number of goroutines, interleaved at the granularity of the critical sections ----

  /** Where a goroutine is. Deciding is the gap in Emit between unlocking and Flush taking the lock;
      Sending holds the number of the batch it cut off and is outside the lock. */
  datatype Pc = Idle | Deciding | Flushing | Sending(batch: nat)

  datatype State = State(
    guarded: Guarded,
    pcs: map<nat, Pc>,             // goroutines not listed are idle
    accepted: seq<LogEntry>,       // entries in the order Emit appended them
    taken: seq<seq<LogEntry>>,     // batches in the order they were cut off under the lock
    ended: map<nat, bool>)         // batch number -> did emit succeed
  {
    function Pc(t: nat): Pc { if t in pcs then pcs[t] else Idle }

    function At(t: nat, pc: Pc): State { this.(pcs := pcs[t := pc]) }
  }

  datatype Action =
    | Emit(t: nat, level: string, message: string, now: int)
    | CallFlush(t: nat)
    | Section(t: nat, now: int)
    | SendDone(t: nat, ok: bool)

  function Init(now: int): State {
    State(Guarded([], [], now), map[], [], [], map[])
  }

  function ExecEmit(s: State, t: nat, entry: Option<LogEntry>, now: int): State {
    if s.Pc(t) != Idle || entry.None? then s
    else
      var g := Appended(s.guarded, entry.value);
      s.(guarded := g, accepted := s.accepted + [entry.value])
       .At(t, if ShouldFlush(g, now) then Deciding else Idle)
  }

  function ExecSection(s: State, t: nat, now: int): State {
    if s.Pc(t) != Deciding && s.Pc(t) != Flushing then s
    else
      var (g, batch) := Taken(s.guarded, now);
      if batch == [] then s.(guarded := g).At(t, Idle)
      else s.(guarded := g, taken := s.taken + [batch]).At(t, Sending(|s.taken|))
  }

  function ExecSendDone(s: State, t: nat, ok: bool): State {
    if !s.Pc(t).Sending? then s
    else s.(ended := s.ended[s.Pc(t).batch := ok]).At(t, if ok then Flushing else Idle)
  }

  /** One atomic step; an action that its goroutine cannot take now changes nothing. */
  function Exec(s: State, a: Action): State {
    match a
    case Emit(t, level, message, now) => ExecEmit(s, t, Accept(level, message), now)
    case CallFlush(t) => if s.Pc(t) == Idle then s.At(t, Flushing) else s
    case Section(t, now) => ExecSection(s, t, now)
    case SendDone(t, ok) => ExecSendDone(s, t, ok)
  }

  /** The state after any interleaving: every list of actions is one. */
  function Run(start: int, actions: seq<Action>): State {
    if actions == [] then Init(start)
    else Exec(Run(start, actions[..|actions| - 1]), actions[|actions| - 1])
  }

  /** The goroutines in the gap between deciding to flush and taking the lock. */
  function Undelivered(pcs: map<nat, Pc>): set<nat> {
    set t | t in pcs && pcs[t] == Deciding
  }

  function Texts(entries: seq<LogEntry>): seq<string> {
    seq(|entries|, i requires 0 <= i < |entries| => entries[i].message)
  }

  /** Nothing accepted is lost, duplicated or reordered by the drain. */
  ghost predicate Conserved(s: State) {
    && Flatten(s.taken) + s.guarded.buffer == s.accepted
    && s.guarded.messages == Texts(s.accepted)
    && (forall b :: b in s.taken ==> 1 <= |b| <= MAX_BATCH)
  }

  /** Every batch is handed to emit exactly once: it has ended, or exactly one goroutine is sending it. */
  ghost predicate SentOnce(s: State) {
    && (forall n :: n in s.ended ==> n < |s.taken|)
    && (forall t :: t in s.pcs && s.pcs[t].Sending? ==> s.pcs[t].batch < |s.taken| && s.pcs[t].batch !in s.ended)
    && (forall t, u :: t in s.pcs && u in s.pcs && s.pcs[t].Sending? && s.pcs[t] == s.pcs[u] ==> t == u)
    && (forall n :: 0 <= n < |s.taken| && n !in s.ended ==> exists t :: t in s.pcs && s.pcs[t] == Sending(n))
  }

  ghost predicate Bounded(s: State) {
    |s.guarded.buffer| <= BATCH_SIZE - 1 + |Undelivered(s.pcs)|
  }

  lemma ConservedEmit(s: State, t: nat, entry: Option<LogEntry>, now: int)
    requires Conserved(s)
    ensures Conserved(ExecEmit(s, t, entry, now))
  {
    if entry.Some? {
      assert Flatten(s.taken) + (s.guarded.buffer + [entry.value])
          == Flatten(s.taken) + s.guarded.buffer + [entry.value];
    }
  }

  lemma ConservedSection(s: State, t: nat, now: int)
    requires Conserved(s)
    ensures Conserved(ExecSection(s, t, now))
  {
    var (g, batch) := Taken(s.guarded, now);
    FlattenSnoc(s.taken, batch);
    Rejoin(s.guarded.buffer, BatchLength(s.guarded.buffer));
    Associate(Flatten(s.taken), batch, g.buffer);
  }

  lemma ConservedStep(s: State, a: Action)
    requires Conserved(s)
    ensures Conserved(Exec(s, a))
  {
    match a
    case Emit(t, level, message, now) => ConservedEmit(s, t, Accept(level, message), now);
    case Section(t, now) => ConservedSection(s, t, now);
    case CallFlush(t) =>
    case SendDone(t, ok) =>
  }

  lemma SentOnceMove(s: State, t: nat, pc: Pc)
    requires SentOnce(s) && !s.Pc(t).Sending? && !pc.Sending?
    ensures SentOnce(s.At(t, pc))
  {
    var s' := s.At(t, pc);
    forall n | 0 <= n < |s.taken| && n !in s.ended
      ensures exists u :: u in s'.pcs && s'.pcs[u] == Sending(n)
    {
      var u :| u in s.pcs && s.pcs[u] == Sending(n);
      assert u in s'.pcs && s'.pcs[u] == Sending(n);
    }
  }

  lemma SentOnceSection(s: State, t: nat, now: int)
    requires SentOnce(s)
    ensures SentOnce(ExecSection(s, t, now))
  {
    var s' := ExecSection(s, t, now);
    if s'.taken == s.taken {
      if s' != s {
        SentOnceMove(s.(guarded := s'.guarded), t, Idle);
      }
    } else {
      forall n | 0 <= n < |s'.taken| && n !in s'.ended
        ensures exists u :: u in s'.pcs && s'.pcs[u] == Sending(n)
      {
        if n < |s.taken| {
          var u :| u in s.pcs && s.pcs[u] == Sending(n);
          assert u in s'.pcs && s'.pcs[u] == Sending(n);
        } else {
          assert t in s'.pcs && s'.pcs[t] == Sending(n);
        }
      }
    }
  }

  lemma SentOnceSendDone(s: State, t: nat, ok: bool)
    requires SentOnce(s)
    ensures SentOnce(ExecSendDone(s, t, ok))
  {
    var s' := ExecSendDone(s, t, ok);
    forall n | 0 <= n < |s'.taken| && n !in s'.ended
      ensures exists u :: u in s'.pcs && s'.pcs[u] == Sending(n)
    {
      var u :| u in s.pcs && s.pcs[u] == Sending(n);
      assert u in s'.pcs && s'.pcs[u] == Sending(n);
    }
  }

  lemma SentOnceStep(s: State, a: Action)
    requires SentOnce(s)
    ensures SentOnce(Exec(s, a))
  {
    match a
    case Emit(t, level, message, now) =>
      var s' := ExecEmit(s, t, Accept(level, message), now);
      if s' != s {
        SentOnceMove(s.(guarded := s'.guarded, accepted := s'.accepted), t, s'.pcs[t]);
      }
    case CallFlush(t) => if s.Pc(t) == Idle { SentOnceMove(s, t, Flushing); }
    case Section(t, now) => SentOnceSection(s, t, now);
    case SendDone(t, ok) => SentOnceSendDone(s, t, ok);
  }

  lemma UndeliveredAt(pcs: map<nat, Pc>, t: nat, pc: Pc)
    ensures var before := Undelivered(pcs);
            var after := Undelivered(pcs[t := pc]);
            |after| == |before| - (if t in before then 1 else 0) + (if pc == Deciding then 1 else 0)
  {
    SizeChange(Undelivered(pcs), Undelivered(pcs[t := pc]), t);
  }

  lemma BoundedStep(s: State, a: Action)
    requires Bounded(s)
    ensures Bounded(Exec(s, a))
  {
    match a
    case Emit(t, level, message, now) =>
      UndeliveredAt(s.pcs, t, Deciding);
      UndeliveredAt(s.pcs, t, Idle);
    case CallFlush(t) =>
      UndeliveredAt(s.pcs, t, Flushing);
    case Section(t, now) =>
      UndeliveredAt(s.pcs, t, Idle);
      UndeliveredAt(s.pcs, t, Sending(|s.taken|));
    case SendDone(t, ok) =>
      UndeliveredAt(s.pcs, t, Flushing);
      UndeliveredAt(s.pcs, t, Idle);
  }

  /** In every interleaving the batches in lock order, then the buffer, are the accepted entries in
      order; messages holds their texts; a batch has 1 to 200 entries; and every batch is sent once. */
  lemma {:induction false} NothingLostOrDuplicated(start: int, actions: seq<Action>)
    ensures Conserved(Run(start, actions)) && SentOnce(Run(start, actions))
  {
    if actions == [] {
    } else {
      var before := actions[..|actions| - 1];
      NothingLostOrDuplicated(start, before);
      ConservedStep(Run(start, before), actions[|actions| - 1]);
      SentOnceStep(Run(start, before), actions[|actions| - 1]);
    }
  }

  /** In every interleaving the buffer exceeds nine entries only by calls that have decided to flush. */
  lemma {:induction false} BufferBounded(start: int, actions: seq<Action>)
    ensures |Run(start, actions).guarded.buffer| <= 9 + |Undelivered(Run(start, actions).pcs)|
  {
    if actions == [] {
      assert Undelivered(Init(start).pcs) == {};
    } else {
      BufferBounded(start, actions[..|actions| - 1]);
      BoundedStep(Run(start, actions[..|actions| - 1]), actions[|actions| - 1]);
    }
  }

  ghost predicate Quiet(s: State) { forall t :: t in s.pcs ==> s.pcs[t] == Idle }

  /** With no call in flight the buffer holds at most nine entries, and every batch has been sent. */
  lemma QuietState(start: int, actions: seq<Action>)
    requires Quiet(Run(start, actions))
    ensures var s := Run(start, actions);
            && |s.guarded.buffer| <= 9
            && (forall n :: 0 <= n < |s.taken| ==> n in s.ended)
  {
    BufferBounded(start, actions);
    NothingLostOrDuplicated(start, actions);
    assert Undelivered(Run(start, actions).pcs) == {};
  }

  // ---- what the steps do, in plain terms ----

  /** A goroutine with nothing to do can always emit: a blank message is dropped, any other is appended,
      and a drain is due at ten entries or half a second after the last one. */
  lemma EmitStep(s: State, t: nat, level: string, message: string, now: int)
    requires s.Pc(t) == Idle
    ensures var r := Exec(s, Emit(t, level, message, now));
            var entry := LogEntry(if AllSpace(level) then "info" else level, TrimSpace(message));
            if AllSpace(message) then r == s
            else
              && r.accepted == s.accepted + [entry] && r.guarded.buffer == s.guarded.buffer + [entry]
              && r.taken == s.taken && r.ended == s.ended && r.guarded.lastFlush == s.guarded.lastFlush
              && r.pcs == s.pcs[t := if |s.guarded.buffer| + 1 >= 10 || now - s.guarded.lastFlush >= 500
                                     then Deciding else Idle]
  {
    TrimSpaceEmptyIff(message);
    TrimSpaceEmptyIff(level);
  }

  function Continue(s: State, actions: seq<Action>): State
    decreases |actions|
  {
    if actions == [] then s else Continue(Exec(s, actions[0]), actions[1..])
  }

  /** A drain whose sends all succeed hands over the whole buffer, 200 entries at a time, and ends. */
  lemma {:induction false} DrainSteps(s: State, t: nat, now: int) returns (actions: seq<Action>)
    requires s.Pc(t) == Deciding || s.Pc(t) == Flushing
    ensures var r := Continue(s, actions);
            && r.Pc(t) == Idle && r.guarded.buffer == [] && r.guarded.lastFlush == now
            && r.taken == s.taken + Chunks(s.guarded.buffer) && r.accepted == s.accepted
            && (forall n :: |s.taken| <= n < |r.taken| ==> n in r.ended && r.ended[n])
            && (forall n :: 0 <= n < |s.taken| && n in s.ended ==> n in r.ended && r.ended[n] == s.ended[n])
    decreases |s.guarded.buffer|
  {
    if s.guarded.buffer == [] {
      actions := [Section(t, now)];
      assert Continue(s, actions) == Continue(Exec(s, Section(t, now)), []);
    } else {
      var s2 := OneBatch(s, t, now);
      var rest := DrainSteps(s2, t, now);
      actions := [Section(t, now), SendDone(t, true)] + rest;
      ContinueTwo(s, Section(t, now), SendDone(t, true), rest);
      Associate(s.taken, [s.guarded.buffer[..BatchLength(s.guarded.buffer)]], Chunks(s2.guarded.buffer));
    }
  }

  /** One critical section of a drain and its successful send. */
  lemma OneBatch(s: State, t: nat, now: int) returns (r: State)
    requires s.guarded.buffer != [] && (s.Pc(t) == Deciding || s.Pc(t) == Flushing)
    ensures r == Exec(Exec(s, Section(t, now)), SendDone(t, true))
    ensures var n := BatchLength(s.guarded.buffer);
            && n > 0 && r.guarded == Guarded(s.guarded.buffer[n..], s.guarded.messages, now)
            && r.taken == s.taken + [s.guarded.buffer[..n]] && r.accepted == s.accepted
    ensures r.Pc(t) == Flushing && r.ended == s.ended[|s.taken| := true]
  {
    r := Exec(Exec(s, Section(t, now)), SendDone(t, true));
  }

  lemma ContinueTwo(s: State, a: Action, b: Action, rest: seq<Action>)
    ensures Continue(s, [a, b] + rest) == Continue(Exec(Exec(s, a), b), rest)
  {
    assert ([a, b] + rest)[1..] == [b] + rest && ([b] + rest)[1..] == rest;
  }

  /** A failed send ends the drain, and its batch is not put back. */
  lemma FailedSend(s: State, t: nat, n: nat)
    requires s.Pc(t) == Sending(n)
    ensures var r := Exec(s, SendDone(t, false));
            && r.guarded == s.guarded && r.taken == s.taken && r.pcs == s.pcs[t := Idle]
            && r.ended == s.ended[n := false]
  {
  }

  // ---- when batches are delivered in order ----

  /** The sends have ended in the order the batches were cut off in. */
  ghost predicate EndedInOrder(s: State) {
    forall m, n :: 0 <= m < n && n in s.ended ==> m in s.ended
  }

  /** Whichever send ends next, that order is kept. */
  ghost predicate NextInOrder(s: State) {
    forall t, ok :: EndedInOrder(ExecSendDone(s, t, ok))
  }

  ghost predicate OneSender(s: State) {
    forall t, u :: t in s.pcs && u in s.pcs && s.pcs[t].Sending? && s.pcs[u].Sending? ==> t == u
  }

  /** Of two sends under way the later one may end first. */
  lemma TwoSendersOvertake(s: State)
    requires SentOnce(s) && !OneSender(s)
    ensures !NextInOrder(s)
  {
    var t, u :| t in s.pcs && u in s.pcs && s.pcs[t].Sending? && s.pcs[u].Sending? && t != u;
    var late := if s.pcs[t].batch < s.pcs[u].batch then u else t;
    var early := if late == u then t else u;
    var s' := ExecSendDone(s, late, true);
    assert s.pcs[late].batch in s'.ended && s.pcs[early].batch !in s'.ended;
    assert !EndedInOrder(s');
  }

  /** A single send under way is that of the last batch. */
  lemma OneSenderInOrder(s: State)
    requires SentOnce(s) && EndedInOrder(s) && OneSender(s)
    ensures NextInOrder(s)
  {
    forall t, ok ensures EndedInOrder(ExecSendDone(s, t, ok)) {
      var s' := ExecSendDone(s, t, ok);
      if s.Pc(t).Sending? {
        forall n | 0 <= n < |s.taken| ensures n in s'.ended {
          if n !in s.ended {
            var u :| u in s.pcs && s.pcs[u] == Sending(n);
            assert u == t;
          }
        }
      }
    }
  }

  lemma OrderStep(s: State, a: Action)
    requires EndedInOrder(s) && NextInOrder(s)
    ensures EndedInOrder(Exec(s, a))
  {
    match a
    case Emit(t, level, message, now) => assert Exec(s, a).ended == s.ended;
    case CallFlush(t) => assert Exec(s, a).ended == s.ended;
    case Section(t, now) => assert Exec(s, a).ended == s.ended;
    case SendDone(t, ok) => assert EndedInOrder(ExecSendDone(s, t, ok));
  }

  ghost predicate AlwaysOneSender(start: int, actions: seq<Action>) {
    forall k :: 0 <= k <= |actions| ==> OneSender(Run(start, actions[..k]))
  }

  ghost predicate AlwaysNextInOrder(start: int, actions: seq<Action>) {
    forall k :: 0 <= k <= |actions| ==> NextInOrder(Run(start, actions[..k]))
  }

  lemma RunTo(start: int, actions: seq<Action>, k: nat)
    requires 0 < k <= |actions|
    ensures Run(start, actions[..k]) == Exec(Run(start, actions[..k - 1]), actions[k - 1])
  {
    assert actions[..k][..k - 1] == actions[..k - 1];
  }

  lemma {:induction false} OneSenderKeepsOrder(start: int, actions: seq<Action>, k: nat)
    requires AlwaysOneSender(start, actions) && k <= |actions|
    ensures EndedInOrder(Run(start, actions[..k])) && NextInOrder(Run(start, actions[..k]))
  {
    var s := Run(start, actions[..k]);
    if k == 0 {
      assert s == Init(start);
    } else {
      OneSenderKeepsOrder(start, actions, k - 1);
      RunTo(start, actions, k);
      OrderStep(Run(start, actions[..k - 1]), actions[k - 1]);
    }
    NothingLostOrDuplicated(start, actions[..k]);
    OneSenderInOrder(s);
  }

  /** In every interleaving: at each moment the send that ends next is bound to be the next in order
      exactly when at each moment at most one goroutine is sending. */
  lemma InOrderIff(start: int, actions: seq<Action>)
    ensures AlwaysNextInOrder(start, actions) <==> AlwaysOneSender(start, actions)
    ensures AlwaysOneSender(start, actions) ==> EndedInOrder(Run(start, actions))
  {
    if AlwaysOneSender(start, actions) {
      forall k | 0 <= k <= |actions| ensures NextInOrder(Run(start, actions[..k])) {
        OneSenderKeepsOrder(start, actions, k);
      }
      OneSenderKeepsOrder(start, actions, |actions|);
      assert actions[..|actions|] == actions;
    }
    if AlwaysNextInOrder(start, actions) {
      forall k | 0 <= k <= |actions| ensures OneSender(Run(start, actions[..k])) {
        NothingLostOrDuplicated(start, actions[..k]);
        if !OneSender(Run(start, actions[..k])) {
          TwoSendersOvertake(Run(start, actions[..k]));
        }
      }
    }
  }

  /** Emit and Flush are called one at a time: a call begins only when no other is in flight. */
  ghost predicate OneAtATime(start: int, actions: seq<Action>) {
    forall k :: 0 <= k < |actions| && (actions[k].Emit? || actions[k].CallFlush?) ==> Quiet(Run(start, actions[..k]))
  }

  ghost predicate OneBusy(s: State) {
    forall t, u :: t in s.pcs && u in s.pcs && s.pcs[t] != Idle && s.pcs[u] != Idle ==> t == u
  }

  lemma {:induction false} OneAtATimeOneBusy(start: int, actions: seq<Action>, k: nat)
    requires OneAtATime(start, actions) && k <= |actions|
    ensures OneBusy(Run(start, actions[..k]))
  {
    if k == 0 {
      assert Run(start, actions[..0]) == Init(start);
    } else {
      OneAtATimeOneBusy(start, actions, k - 1);
      RunTo(start, actions, k);
      OneBusyStep(Run(start, actions[..k - 1]), actions[k - 1]);
    }
  }

  lemma OneBusyStep(s: State, a: Action)
    requires OneBusy(s) && (a.Emit? || a.CallFlush? ==> Quiet(s))
    ensures OneBusy(Exec(s, a))
  {
    var s' := Exec(s, a);
    assert forall u :: u in s'.pcs && u != a.t ==> u in s.pcs && s'.pcs[u] == s.pcs[u];
    if !a.Emit? && !a.CallFlush? && s' != s {
      assert s.Pc(a.t) != Idle;
    }
  }

  /** Calls made one at a time deliver in order. */
  lemma CallsOneAtATimeInOrder(start: int, actions: seq<Action>)
    requires OneAtATime(start, actions)
    ensures AlwaysNextInOrder(start, actions) && EndedInOrder(Run(start, actions))
  {
    forall k | 0 <= k <= |actions| ensures OneSender(Run(start, actions[..k])) {
      OneAtATimeOneBusy(start, actions, k);
    }
    InOrderIff(start, actions);
  }

  /** The smallest case of two senders: batch 1 has been delivered while batch 0 is still being sent. */
  lemma DeliveryMayOvertake(start: int, level: string, x: string, y: string)
    requires Accept(level, x).Some? && Accept(level, y).Some?
    ensures var s := Run(start, [Emit(1, level, x, start + 500), Section(1, start + 500),
                                 Emit(2, level, y, start + 1000), Section(2, start + 1000), SendDone(2, true)]);
            |s.taken| == 2 && 1 in s.ended && s.ended[1] && 0 !in s.ended
  {
    var s1 := OneEntry(Init(start), 1, level, x, start + 500);
    var s2 := OneEntry(s1, 2, level, y, start + 1000);
    SecondDone(s2);
    RunFive(start, Emit(1, level, x, start + 500), Section(1, start + 500),
            Emit(2, level, y, start + 1000), Section(2, start + 1000), SendDone(2, true));
  }

  lemma SecondDone(s: State)
    requires s.Pc(2) == Sending(1) && |s.taken| == 2 && s.ended == map[]
    ensures var r := Exec(s, SendDone(2, true)); |r.taken| == 2 && 1 in r.ended && r.ended[1] && 0 !in r.ended
  {
  }

  lemma RunFive(start: int, a: Action, b: Action, c: Action, d: Action, e: Action)
    ensures Run(start, [a, b, c, d, e]) == Exec(Exec(Exec(Exec(Exec(Init(start), a), b), c), d), e)
  {
    RunSnoc(start, [], a);
    RunSnoc(start, [a], b);
    RunSnoc(start, [a] + [b], c);
    RunSnoc(start, [a] + [b] + [c], d);
    RunSnoc(start, [a] + [b] + [c] + [d], e);
    assert [a, b, c, d, e] == [a] + [b] + [c] + [d] + [e];
    assert [] + [a] == [a];
  }

  /** From an empty buffer half a second after the last drain: Emit, then its first critical section. */
  lemma OneEntry(s: State, t: nat, level: string, text: string, now: int) returns (r: State)
    requires s.guarded.buffer == [] && s.Pc(t) == Idle && now - s.guarded.lastFlush >= FLUSH_INTERVAL_MS
    requires Accept(level, text).Some?
    ensures r == Exec(Exec(s, Emit(t, level, text, now)), Section(t, now))
    ensures r.guarded.buffer == [] && r.guarded.lastFlush == now && r.ended == s.ended
    ensures r.pcs == s.pcs[t := Sending(|s.taken|)] && |r.taken| == |s.taken| + 1
  {
    var s1 := ExecEmit(s, t, Accept(level, text), now);
    assert s1.Pc(t) == Deciding && |s1.guarded.buffer| == 1;
    assert BatchLength(s1.guarded.buffer) == 1;
    r := ExecSection(s1, t, now);
    assert r.pcs == s.pcs[t := Sending(|s.taken|)];
  }

  lemma RunSnoc(start: int, actions: seq<Action>, a: Action)
    ensures Run(start, actions + [a]) == Exec(Run(start, actions), a)
  {
    assert (actions + [a])[..|actions|] == actions;
  }

  // ---- the object, called by one goroutine at a time ----

  /** The batches one uninterrupted drain cuts a buffer into: 200 at a time. */
  function Chunks(buffer: seq<LogEntry>): (r: seq<seq<LogEntry>>)
    ensures Flatten(r) == buffer
    decreases |buffer|
  {
    if buffer == [] then []
    else [buffer[..BatchLength(buffer)]] + Chunks(buffer[BatchLength(buffer)..])
  }

  class LiveLogger {
    var buffer: seq<LogEntry>
    var messages: seq<string>
    var lastFlush: int
    ghost var sent: seq<seq<LogEntry>>   // every batch handed to emit, in order
    ghost var failures: nat              // how many of these emit failed

    function View(): Guarded reads this { Guarded(buffer, messages, lastFlush) }

    constructor (now: int)
      ensures buffer == [] && messages == [] && lastFlush == now && sent == [] && failures == 0
    {
      buffer, messages, lastFlush := [], [], now;
      sent, failures := [], 0;
    }

    /** The critical section of Flush. */
    method TakeBatch(clock: int) returns (batch: seq<LogEntry>)
      modifies this`buffer, this`lastFlush
      ensures (View(), batch) == Taken(old(View()), clock)
    {
      lastFlush := clock;
      var batchSize := if |buffer| < MAX_BATCH then |buffer| else MAX_BATCH;
      batch := buffer[..batchSize];
      buffer := buffer[batchSize..];
    }

    /** batches are what this call handed to emit. */
    method Flush(clock: int) returns (ok: bool, ghost batches: seq<seq<LogEntry>>)
      modifies this
      ensures messages == old(messages) && lastFlush == clock
      ensures sent == old(sent) + batches
      ensures batches + Chunks(buffer) == Chunks(old(buffer))
      ensures Flatten(batches) + buffer == old(buffer)
      ensures if ok then buffer == [] && failures == old(failures)
              else batches != [] && failures == old(failures) + 1
      ensures Cut200(batches, buffer)
    {
      batches := [];
      ghost var before, sentBefore := buffer, sent;
      while true
        invariant messages == old(messages) && sent == sentBefore + batches && failures == old(failures)
        invariant batches + Chunks(buffer) == Chunks(before)
        decreases |buffer|
      {
        ghost var held := buffer;
        var batch := TakeBatch(clock);
        assert batch == held[..BatchLength(held)] && buffer == held[BatchLength(held)..];
        if batch == [] {
          ChunksLeft(batches, buffer, before);
          ChunksCut(batches, buffer, before);
          return true, batches;
        }
        CutBatch(batches, held);
        batches := batches + [batch];
        sent := sent + [batch];
        var delivered: bool := *;          // the network call, outside the lock
        failures := failures + if delivered then 0 else 1;
        if !delivered {
          ChunksLeft(batches, buffer, before);
          ChunksCut(batches, buffer, before);
          return false, batches;
        }
      }
    }

    /** Emit ignores the drain's error: what it appended is then in a batch or still in the buffer. */
    method Emit(level: string, message: string, clock: int) returns (ghost batches: seq<seq<LogEntry>>)
      modifies this
      ensures AllSpace(message) ==> unchanged(this) && batches == []
      ensures !AllSpace(message) ==>
                var entry := LogEntry(if AllSpace(level) then "info" else level, TrimSpace(message));
                && messages == old(messages) + [TrimSpace(message)]
                && Flatten(batches) + buffer == old(buffer) + [entry]
                && sent == old(sent) + batches && Cut200(batches, buffer)
                && (if |old(buffer)| + 1 >= 10 || clock - old(lastFlush) >= 500
                    then batches != [] && lastFlush == clock
                    else batches == [] && lastFlush == old(lastFlush))
    {
      batches := [];
      TrimSpaceEmptyIff(message);
      TrimSpaceEmptyIff(level);
      var text := TrimSpace(message);
      if text == "" {
        return;
      }
      var level := level;
      if TrimSpace(level) == "" {
        level := "info";
      }
      messages := messages + [text];
      buffer := buffer + [LogEntry(level, text)];
      var shouldFlush := |buffer| >= BATCH_SIZE || clock - lastFlush >= FLUSH_INTERVAL_MS;
      if shouldFlush {
        ghost var before := buffer;
        var _, handed := Flush(clock);
        batches := handed;
        assert before != [] && Chunks(before) != [];
      }
    }
  }

  /** Batches of 200 entries, of which only the last may have fewer, and only if nothing is left. */
  ghost predicate Cut200(batches: seq<seq<LogEntry>>, rest: seq<LogEntry>) {
    forall k :: 0 <= k < |batches| ==>
      1 <= |batches[k]| <= 200 && (k < |batches| - 1 || rest != [] ==> |batches[k]| == 200)
  }

  lemma {:induction false} ChunkSizes(buffer: seq<LogEntry>)
    ensures Cut200(Chunks(buffer), [])
    decreases |buffer|
  {
    if buffer == [] {
    } else {
      var rest := buffer[BatchLength(buffer)..];
      ChunkSizes(rest);
      assert Chunks(rest) == [] <==> rest == [];
    }
  }

  lemma ChunksCut(batches: seq<seq<LogEntry>>, buffer: seq<LogEntry>, before: seq<LogEntry>)
    requires batches + Chunks(buffer) == Chunks(before)
    ensures Cut200(batches, buffer)
  {
    ChunkSizes(before);
    assert forall k :: 0 <= k < |batches| ==> batches[k] == Chunks(before)[k];
    assert buffer != [] ==> Chunks(buffer) != [];
  }

  lemma CutBatch(batches: seq<seq<LogEntry>>, buffer: seq<LogEntry>)
    requires buffer != []
    ensures var n := BatchLength(buffer);
            batches + [buffer[..n]] + Chunks(buffer[n..]) == batches + Chunks(buffer)
  {
    var n := BatchLength(buffer);
    Associate(batches, [buffer[..n]], Chunks(buffer[n..]));
  }

  lemma ChunksLeft(batches: seq<seq<LogEntry>>, buffer: seq<LogEntry>, before: seq<LogEntry>)
    requires batches + Chunks(buffer) == Chunks(before)
    ensures Flatten(batches) + buffer == before
  {
    FlattenAppend(batches, Chunks(buffer));
  }
}
