/** internal/runtime/runtime.go: runProcessWithLiveOutputUntil. Two stream readers, a goroutine that
    waits for them and for the process, and the consumer, talking over two channels. */
module LiveOutput {
  import opened Basics
  import Tokenizer

  const QUEUE_CAPACITY := 100

  datatype Stream = Stdout | Stderr

  datatype Event = Text(stream: Stream, text: string) | ReadError(stream: Stream)

  /** The bytes each stream gives before it ends, or before reading it fails if it is in broken; strip is
      stripANSI; stop is the stop condition as a function of all texts it has been shown. */
  datatype Job = Job(stdout: string, stderr: string, broken: set<Stream>,
                     strip: string -> string, stop: seq<Event> -> bool)
  {
    function Bytes(st: Stream): string { if st.Stdout? then stdout else stderr }
  }

  function Texts(st: Stream, tokens: seq<string>): (r: seq<Event>)
    ensures |r| == |tokens| && forall i :: 0 <= i < |r| ==> r[i] == Text(st, tokens[i])
  {
    if tokens == [] then [] else [Text(st, tokens[0])] + Texts(st, tokens[1..])
  }

  /** Everything the reader of one stream will send: its tokens, then the scanner's error if any. */
  function Script(job: Job, st: Stream): seq<Event> {
    var (tokens, tooLong) := Tokenizer.Delivered(job.Bytes(st), Tokenizer.MAX_TOKEN);
    Texts(st, tokens) + if tooLong || st in job.broken then [ReadError(st)] else []
  }

  datatype Reader = Reader(todo: seq<Event>, done: bool)

  datatype Waiter = AwaitReaders | AwaitProcess | SendResult | CloseWaitCh | CloseEvents | Finished

  /** Returned holds the value received from waitCh: did the process fail. */
  datatype Consumer = Ranging | Receiving | Returned(waitErr: bool)

  /** The local variables of the consumer loop; logged are the texts passed on to the log. */
  datatype Locals = Locals(parts: seq<Event>, logged: seq<Event>, readErr: bool, stopped: bool)

  datatype State = State(
    out: Reader, err: Reader, waiter: Waiter, consumer: Consumer,
    queue: seq<Event>, closed: bool,              // events
    waitCh: seq<bool>, waitClosed: bool,
    exit: Option<bool>,                           // the process has ended; true: with an error
    consumed: seq<Event>, locals: Locals,
    panicked: bool)                               // a send on, or second close of, a closed channel
  {
    function Reader(st: Stream): Reader { if st.Stdout? then out else err }

    function With(st: Stream, r: Reader): State { if st.Stdout? then this.(out := r) else this.(err := r) }
  }

  datatype Action = Send(st: Stream) | Finish(st: Stream) | Wait | Exit(failed: bool) | Consume | Receive

  function Init(job: Job): State {
    State(Reader(Script(job, Stdout), false), Reader(Script(job, Stderr), false), AwaitReaders, Ranging,
          [], false, [], false, None, [], Locals([], [], false, false), false)
  }

  function ExecSend(s: State, st: Stream): State {
    var r := s.Reader(st);
    if r.todo == [] then s
    else if s.closed then s.(panicked := true)
    else if |s.queue| >= QUEUE_CAPACITY then s                       // blocks
    else s.(queue := s.queue + [r.todo[0]]).With(st, Reader(r.todo[1..], false))
  }

  function ExecFinish(s: State, st: Stream): State {
    if s.Reader(st).todo == [] then s.With(st, Reader([], true)) else s
  }

  function ExecWait(s: State): State {
    match s.waiter
    case AwaitReaders => if s.out.done && s.err.done then s.(waiter := AwaitProcess) else s
    case AwaitProcess => if s.exit.Some? then s.(waiter := SendResult) else s
    case SendResult =>
      if s.waitClosed then s.(panicked := true)
      else if |s.waitCh| >= 1 || s.exit.None? then s                 // blocks
      else s.(waitCh := s.waitCh + [s.exit.value], waiter := CloseWaitCh)
    case CloseWaitCh => if s.waitClosed then s.(panicked := true) else s.(waitClosed := true, waiter := CloseEvents)
    case CloseEvents => if s.closed then s.(panicked := true) else s.(closed := true, waiter := Finished)
    case Finished => s
  }

  /** The body of the range loop. */
  function Handle(job: Job, v: Locals, e: Event): Locals {
    match e
    case ReadError(_) => v.(readErr := true)
    case Text(st, raw) =>
      var text := job.strip(raw);
      if text == "" then v
      else
        var parts := v.parts + [Text(st, text)];
        if job.stop(parts) then v.(parts := parts, stopped := true)
        else v.(parts := parts, logged := v.logged + [Text(st, text)])
  }

  function ExecConsume(job: Job, s: State): State {
    if !s.consumer.Ranging? then s
    else if s.queue != [] then
      s.(queue := s.queue[1..], consumed := s.consumed + [s.queue[0]], locals := Handle(job, s.locals, s.queue[0]))
    else if s.closed then s.(consumer := Receiving)
    else s                                                           // blocks
  }

  function ExecReceive(s: State): State {
    if !s.consumer.Receiving? then s
    else if s.waitCh != [] then s.(waitCh := s.waitCh[1..], consumer := Returned(s.waitCh[0]))
    else if s.waitClosed then s.(consumer := Returned(false))        // a closed channel gives nil
    else s                                                           // blocks
  }

  function Exec(job: Job, s: State, a: Action): State {
    match a
    case Send(st) => ExecSend(s, st)
    case Finish(st) => ExecFinish(s, st)
    case Wait => ExecWait(s)
    case Exit(failed) => if s.exit.None? then s.(exit := Some(failed)) else s
    case Consume => ExecConsume(job, s)
    case Receive => ExecReceive(s)
  }

  /** The state after any interleaving. */
  function Run(job: Job, actions: seq<Action>): State {
    if actions == [] then Init(job)
    else Exec(job, Run(job, actions[..|actions| - 1]), actions[|actions| - 1])
  }

  // ---- history specification of the consumer ----

  /** The events of one stream, in order. */
  function Project(events: seq<Event>, st: Stream): seq<Event> {
    if events == [] then [] else Only(events[0], st) + Project(events[1..], st)
  }

  function Only(e: Event, st: Stream): seq<Event> { if e.stream == st then [e] else [] }

  /** The texts that survive stripping. */
  function Parts(job: Job, events: seq<Event>): seq<Event> {
    if events == [] then [] else Part(job, events[0]) + Parts(job, events[1..])
  }

  function Part(job: Job, e: Event): seq<Event> {
    if e.Text? && job.strip(e.text) != "" then [Text(e.stream, job.strip(e.text))] else []
  }

  ghost predicate Stopped(job: Job, parts: seq<Event>) {
    exists k :: 0 < k <= |parts| && job.stop(parts[..k])
  }

  /** The texts at which the stop condition does not hold. */
  function Logged(job: Job, parts: seq<Event>): seq<Event> {
    if parts == [] then []
    else
      var before := parts[..|parts| - 1];
      Logged(job, before) + if job.stop(parts) then [] else [parts[|parts| - 1]]
  }

  lemma {:induction false} ProjectAppend(a: seq<Event>, b: seq<Event>, st: Stream)
    ensures Project(a + b, st) == Project(a, st) + Project(b, st)
  {
    if a == [] {
      assert a + b == b;
    } else {
      Behead(a, b);
      ProjectAppend(a[1..], b, st);
      Associate(Only(a[0], st), Project(a[1..], st), Project(b, st));
    }
  }

  lemma {:induction false} PartsAppend(job: Job, a: seq<Event>, b: seq<Event>)
    ensures Parts(job, a + b) == Parts(job, a) + Parts(job, b)
  {
    if a == [] {
      assert a + b == b;
    } else {
      Behead(a, b);
      PartsAppend(job, a[1..], b);
      Associate(Part(job, a[0]), Parts(job, a[1..]), Parts(job, b));
    }
  }

  lemma {:induction false} ProjectParts(job: Job, events: seq<Event>, st: Stream)
    ensures Project(Parts(job, events), st) == Parts(job, Project(events, st))
  {
    if events == [] {
    } else {
      var e, rest := events[0], events[1..];
      ProjectParts(job, rest, st);
      ProjectAppend(Part(job, e), Parts(job, rest), st);
      PartsAppend(job, Only(e, st), Project(rest, st));
      OneEvent(job, e, st);
    }
  }

  lemma OneEvent(job: Job, e: Event, st: Stream)
    ensures Project(Part(job, e), st) == Parts(job, Only(e, st))
    ensures Parts(job, [e]) == Part(job, e)
  {
  }

  // ---- invariants ----

  /** Nothing is lost, duplicated or reordered within a stream. */
  ghost predicate InOrder(job: Job, s: State, st: Stream) {
    Flow(s, st) == Script(job, st)
  }

  /** What has been, is being and will be passed along for one stream. */
  function Flow(s: State, st: Stream): seq<Event> {
    Project(s.consumed, st) + Project(s.queue, st) + s.Reader(st).todo
  }

  ghost predicate ChannelsSafe(s: State) {
    && !s.panicked
    && |s.queue| <= QUEUE_CAPACITY
    && (s.out.done ==> s.out.todo == []) && (s.err.done ==> s.err.todo == [])
    && (!s.waiter.AwaitReaders? ==> s.out.done && s.err.done)
    && (s.waiter.AwaitReaders? || s.waiter.AwaitProcess? || s.exit.Some?)
    && (s.closed <==> s.waiter.Finished?)
    && (s.waitClosed <==> s.waiter.CloseEvents? || s.waiter.Finished?)
    && (!s.consumer.Ranging? ==> s.closed && s.queue == [])
    && (s.consumer.Returned? ==> s.exit == Some(s.consumer.waitErr))
    && (!s.consumer.Returned? ==>
          s.waitCh == if s.waiter.AwaitReaders? || s.waiter.AwaitProcess? || s.waiter.SendResult? then []
                      else [s.exit.value])
  }

  ghost predicate LocalsRight(job: Job, s: State) { LocalsAfter(job, s.locals, s.consumed) }

  /** What the consumer's variables are after these events. */
  ghost predicate LocalsAfter(job: Job, v: Locals, events: seq<Event>) {
    && v.parts == Parts(job, events)
    && v.logged == Logged(job, v.parts)
    && (v.stopped <==> Stopped(job, v.parts))
    && (v.readErr <==> exists e :: e in events && e.ReadError?)
  }

  lemma FlowSend(s: State, sender: Stream, st: Stream)
    requires s.Reader(sender).todo != [] ==> s.Reader(sender).todo[0].stream == sender
    ensures Flow(ExecSend(s, sender), st) == Flow(s, st)
  {
    var todo, s' := s.Reader(sender).todo, ExecSend(s, sender);
    if s'.queue != s.queue {
      ProjectAppend(s.queue, [todo[0]], st);
      if sender == st {
        Reassociate(Project(s.consumed, st), Project(s.queue, st), [todo[0]], todo[1..]);
        assert [todo[0]] + todo[1..] == todo;
      } else {
        assert Project(s'.queue, st) == Project(s.queue, st);
      }
    }
  }

  lemma Reassociate<T>(a: seq<T>, b: seq<T>, c: seq<T>, d: seq<T>)
    ensures a + (b + c) + d == a + b + (c + d)
    ensures a + c + b == a + (c + b)
  {
  }

  lemma FlowConsume(job: Job, s: State, st: Stream)
    ensures Flow(ExecConsume(job, s), st) == Flow(s, st)
  {
    if s.queue != [] {
      var head, rest := [s.queue[0]], s.queue[1..];
      assert s.queue == head + rest;
      ProjectAppend(head, rest, st);
      ProjectAppend(s.consumed, head, st);
      Reassociate(Project(s.consumed, st), Project(rest, st), Project(head, st), []);
    }
  }

  lemma ScriptStream(job: Job, s: State, st: Stream)
    requires InOrder(job, s, st) && s.Reader(st).todo != []
    ensures s.Reader(st).todo[0].stream == st
  {
    var script := Script(job, st);
    assert forall e :: e in script ==> e.stream == st;
    assert s.Reader(st).todo[0] in script;
  }

  lemma FlowStep(job: Job, s: State, a: Action, st: Stream)
    requires a.Send? && s.Reader(a.st).todo != [] ==> s.Reader(a.st).todo[0].stream == a.st
    ensures Flow(Exec(job, s, a), st) == Flow(s, st)
  {
    match a
    case Send(sender) => FlowSend(s, sender, st);
    case Consume => FlowConsume(job, s, st);
    case _ => Bystanders(job, s, a);
  }

  /** Only Send and Consume touch the events. */
  lemma Bystanders(job: Job, s: State, a: Action)
    requires !a.Send? && !a.Consume?
    ensures var s' := Exec(job, s, a);
            && s'.consumed == s.consumed && s'.queue == s.queue && s'.locals == s.locals
            && s'.out.todo == s.out.todo && s'.err.todo == s.err.todo
  {
    match a
    case Finish(st) =>
    case Wait =>
    case Exit(failed) =>
    case Receive =>
  }

  lemma InOrderStep(job: Job, s: State, a: Action, st: Stream)
    requires InOrder(job, s, Stdout) && InOrder(job, s, Stderr)
    ensures InOrder(job, Exec(job, s, a), st)
  {
    if a.Send? && s.Reader(a.st).todo != [] {
      ScriptStream(job, s, a.st);
    }
    FlowStep(job, s, a, st);
  }

  lemma ChannelsSafeStep(job: Job, s: State, a: Action)
    requires ChannelsSafe(s)
    ensures ChannelsSafe(Exec(job, s, a))
  {
    match a
    case Send(st) =>
    case Finish(st) =>
    case Wait =>
    case Exit(failed) =>
    case Consume =>
    case Receive =>
  }

  lemma StoppedSnoc(job: Job, parts: seq<Event>, e: Event)
    ensures Stopped(job, parts + [e]) <==> Stopped(job, parts) || job.stop(parts + [e])
  {
    var parts' := parts + [e];
    assert parts'[..|parts'|] == parts';
    assert forall k :: 0 < k <= |parts| ==> parts'[..k] == parts[..k];
  }

  lemma LoggedSnoc(job: Job, parts: seq<Event>, e: Event)
    ensures Logged(job, parts + [e]) == Logged(job, parts) + if job.stop(parts + [e]) then [] else [e]
  {
    assert (parts + [e])[..|parts|] == parts;
  }

  lemma PartsSnoc(job: Job, events: seq<Event>, e: Event)
    ensures Parts(job, events + [e]) == Parts(job, events) + Part(job, e)
  {
    PartsAppend(job, events, [e]);
    OneEvent(job, e, Stdout);
  }

  lemma HandleStep(job: Job, v: Locals, events: seq<Event>, e: Event)
    requires LocalsAfter(job, v, events)
    ensures LocalsAfter(job, Handle(job, v, e), events + [e])
  {
    PartsSnoc(job, events, e);
    assert (exists x :: x in events + [e] && x.ReadError?) <==> (exists x :: x in events && x.ReadError?) || e.ReadError? by {
      assert e in events + [e];
    }
    if Part(job, e) == [] {
      assert v.parts + [] == v.parts;
    } else {
      StoppedSnoc(job, v.parts, Part(job, e)[0]);
      LoggedSnoc(job, v.parts, Part(job, e)[0]);
    }
  }

  lemma LocalsRightStep(job: Job, s: State, a: Action)
    requires LocalsRight(job, s)
    ensures LocalsRight(job, Exec(job, s, a))
  {
    match a
    case Consume => if s.queue != [] { HandleStep(job, s.locals, s.consumed, s.queue[0]); }
    case Send(_) =>
    case _ => Bystanders(job, s, a);
  }

  lemma {:induction false} Invariants(job: Job, actions: seq<Action>)
    ensures var s := Run(job, actions);
            InOrder(job, s, Stdout) && InOrder(job, s, Stderr) && ChannelsSafe(s) && LocalsRight(job, s)
  {
    if actions == [] {
    } else {
      var s := Run(job, actions[..|actions| - 1]);
      var a := actions[|actions| - 1];
      Invariants(job, actions[..|actions| - 1]);
      InOrderStep(job, s, a, Stdout);
      InOrderStep(job, s, a, Stderr);
      ChannelsSafeStep(job, s, a);
      LocalsRightStep(job, s, a);
    }
  }

  // ---- main results ----

  /** In every interleaving no send or close meets a closed channel: once events is closed nobody has anything
      to send, and waitCh is open and has room until its one result is sent and it is closed. The queue holds at most 100 events,
      and once the range loop has ended the receive from waitCh cannot block and yields the real result. */
  lemma ChannelsNeverMisused(job: Job, actions: seq<Action>)
    ensures var s := Run(job, actions);
            && !s.panicked
            && |s.queue| <= 100
            && (s.closed ==> s.out.todo == [] && s.err.todo == [] && s.waiter.Finished?)
            && (s.waiter.SendResult? || s.waiter.CloseWaitCh? ==> !s.waitClosed && !s.closed)
            && (s.waiter.SendResult? ==> s.waitCh == [])
            && (s.consumer.Receiving? ==> s.exit.Some? && ExecReceive(s).consumer == Returned(s.exit.value))
  {
    Invariants(job, actions);
  }

  /** When the function returns, the consumed events are an order-preserving merge of everything both
      readers had to send, and the output is the merge of the two streams' stripped non-empty texts. */
  lemma OutputIsMerge(job: Job, actions: seq<Action>)
    requires Run(job, actions).consumer.Returned?
    ensures var s := Run(job, actions);
            && (forall st :: Project(s.consumed, st) == Script(job, st))
            && s.locals.parts == Parts(job, s.consumed)
            && (forall st :: Project(s.locals.parts, st) == Parts(job, Script(job, st)))
            && s.locals.logged == Logged(job, s.locals.parts)
            && s.exit == Some(s.consumer.waitErr)
  {
    Invariants(job, actions);
    var s := Run(job, actions);
    forall st ensures Project(s.consumed, st) == Script(job, st)
      && Project(s.locals.parts, st) == Parts(job, Script(job, st))
    {
      assert InOrder(job, s, st) && s.Reader(st).todo == [] && s.queue == [];
      ProjectParts(job, s.consumed, st);
    }
  }

  // ---- the output in plain terms ----

  /** The texts of a stream that have something left after stripping. */
  function Stripped(job: Job, st: Stream, tokens: seq<string>): seq<Event> {
    if tokens == [] then []
    else
      var text := job.strip(tokens[0]);
      (if text == "" then [] else [Text(st, text)]) + Stripped(job, st, tokens[1..])
  }

  lemma {:induction false} StrippedTexts(job: Job, st: Stream, tokens: seq<string>)
    ensures Parts(job, Texts(st, tokens)) == Stripped(job, st, tokens)
  {
    if tokens == [] {
    } else {
      StrippedTexts(job, st, tokens[1..]);
      assert Texts(st, tokens)[1..] == Texts(st, tokens[1..]);
    }
  }

  /** The first k tokens are those before the first one of a mebibyte or more. */
  ghost predicate Readable(tokens: seq<string>, k: nat) {
    && k <= |tokens|
    && (forall i :: 0 <= i < k ==> |tokens[i]| < 1048576)
    && (k < |tokens| ==> |tokens[k]| >= 1048576)
  }

  lemma DeliveredReadable(job: Job, st: Stream) returns (k: nat)
    ensures var tokens := Tokenizer.Tokens(job.Bytes(st));
            var (delivered, tooLong) := Tokenizer.Delivered(job.Bytes(st), Tokenizer.MAX_TOKEN);
            Readable(tokens, k) && delivered == tokens[..k] && (tooLong <==> k < |tokens|)
  {
    Tokenizer.DeliveredTokens(job.Bytes(st), Tokenizer.MAX_TOKEN);
    var delivered := Tokenizer.Delivered(job.Bytes(st), Tokenizer.MAX_TOKEN).0;
    k := |delivered|;
    assert forall i :: 0 <= i < k ==> Tokenizer.Tokens(job.Bytes(st))[i] == delivered[i] && delivered[i] in delivered;
  }

  lemma ScriptParts(job: Job, st: Stream, k: nat)
    requires k <= |Tokenizer.Tokens(job.Bytes(st))|
    requires Tokenizer.Delivered(job.Bytes(st), Tokenizer.MAX_TOKEN).0 == Tokenizer.Tokens(job.Bytes(st))[..k]
    ensures Parts(job, Script(job, st)) == Stripped(job, st, Tokenizer.Tokens(job.Bytes(st))[..k])
  {
    var (tokens, tooLong) := Tokenizer.Delivered(job.Bytes(st), Tokenizer.MAX_TOKEN);
    var error := if tooLong || st in job.broken then [ReadError(st)] else [];
    PartsAppend(job, Texts(st, tokens), error);
    NoParts(job, error);
    StrippedTexts(job, st, tokens);
  }

  lemma NoParts(job: Job, events: seq<Event>)
    requires |events| <= 1 && forall e :: e in events ==> e.ReadError?
    ensures Parts(job, events) == []
  {
    if events != [] {
      assert events[0] in events;
    }
  }

  ghost predicate OutputOf(job: Job, st: Stream, parts: seq<Event>, k: nat) {
    var tokens := Tokenizer.Tokens(if st == Stdout then job.stdout else job.stderr);
    Readable(tokens, k) && Project(parts, st) == Stripped(job, st, tokens[..k])
  }

  ghost predicate ReadToItsEnd(job: Job, st: Stream) {
    st !in job.broken && forall t :: t in Tokenizer.Tokens(job.Bytes(st)) ==> |t| < 1048576
  }

  /** At return the output has, of either stream and in order, what stripping leaves of its tokens: of all of
      them if each is shorter than a mebibyte, else of those before the first that is not. A stream whose
      reading then fails is no exception. */
  lemma OutputIsTokens(job: Job, actions: seq<Action>, st: Stream) returns (k: nat)
    requires Run(job, actions).consumer.Returned?
    ensures OutputOf(job, st, Run(job, actions).locals.parts, k)
    ensures var tokens := Tokenizer.Tokens(job.Bytes(st));
            (forall t :: t in tokens ==> |t| < 1048576) ==>
              Project(Run(job, actions).locals.parts, st) == Stripped(job, st, tokens)
  {
    OutputIsMerge(job, actions);
    k := DeliveredReadable(job, st);
    ScriptParts(job, st, k);
    if forall t :: t in Tokenizer.Tokens(job.Bytes(st)) ==> |t| < 1048576 {
      var tokens := Tokenizer.Tokens(job.Bytes(st));
      assert forall i :: 0 <= i < |tokens| ==> tokens[i] in tokens;
      AllTokens(tokens, k);
    }
  }

  lemma AllTokens(tokens: seq<string>, k: nat)
    requires Readable(tokens, k) && forall i :: 0 <= i < |tokens| ==> |tokens[i]| < 1048576
    ensures tokens[..k] == tokens
  {
  }

  /** What is logged: without any stop everything, and each further text unless the condition holds at it. */
  lemma {:induction false} LoggedIs(job: Job, parts: seq<Event>)
    ensures (forall k :: 0 < k <= |parts| ==> !job.stop(parts[..k])) ==> Logged(job, parts) == parts
    ensures parts != [] ==>
              var before := Logged(job, parts[..|parts| - 1]);
              Logged(job, parts) == if job.stop(parts) then before else before + [parts[|parts| - 1]]
  {
    if parts == [] {
    } else {
      var before := parts[..|parts| - 1];
      LoggedIs(job, before);
      assert forall k :: 0 < k <= |before| ==> before[..k] == parts[..k];
      assert parts[..|parts|] == parts;
    }
  }

  datatype Verdict = TimedOut | Failed | ReadFailed | Success

  /** The return statements after the receive. */
  function Conclude(s: State, deadlineExceeded: bool): Verdict
    requires s.consumer.Returned?
  {
    if deadlineExceeded then TimedOut
    else if s.consumer.waitErr && !s.locals.stopped then Failed
    else if s.locals.readErr then ReadFailed
    else Success
  }

  /** Success means: in time, the process ended well or its output met the stop condition at some text,
      and both streams could be read to their end: no read failed and no line had a mebibyte or more. The
      first of these that is missing is the error reported. */
  lemma SuccessIff(job: Job, actions: seq<Action>, deadlineExceeded: bool)
    requires Run(job, actions).consumer.Returned?
    ensures var s := Run(job, actions);
            var endedWell := s.exit == Some(false)
                             || exists k :: 0 < k <= |s.locals.parts| && job.stop(s.locals.parts[..k]);
            var read := ReadToItsEnd(job, Stdout) && ReadToItsEnd(job, Stderr);
            Conclude(s, deadlineExceeded)
            == if deadlineExceeded then TimedOut else if !endedWell then Failed else if !read then ReadFailed else Success
  {
    Invariants(job, actions);
    OutputIsMerge(job, actions);
    var s := Run(job, actions);
    ErrorsInProjections(s.consumed);
    ScriptError(job, Stdout);
    ScriptError(job, Stderr);
  }

  lemma ScriptError(job: Job, st: Stream)
    ensures !ReadToItsEnd(job, st) <==> exists e :: e in Script(job, st) && e.ReadError?
  {
    var k := DeliveredReadable(job, st);
    var tokens := Tokenizer.Tokens(job.Bytes(st));
    var tooLong := Tokenizer.Delivered(job.Bytes(st), Tokenizer.MAX_TOKEN).1;
    assert k < |tokens| ==> tokens[k] in tokens;
    if tooLong || st in job.broken {
      assert ReadError(st) in Script(job, st);
    }
  }

  lemma {:induction false} ErrorsInProjections(events: seq<Event>)
    ensures (exists e :: e in events && e.ReadError?)
       <==> (exists e :: e in Project(events, Stdout) && e.ReadError?)
            || (exists e :: e in Project(events, Stderr) && e.ReadError?)
  {
    if events == [] {
    } else {
      ErrorsInProjections(events[1..]);
      assert forall e :: e in events <==> e == events[0] || e in events[1..];
      assert forall e, st ::
        e in Project(events, st) <==> (e == events[0] && e.stream == st) || e in Project(events[1..], st);
    }
  }

  /** What is left to do; every step that does anything makes it smaller. */
  function Measure(s: State): nat {
    2 * |s.out.todo| + 2 * |s.err.todo| + |s.queue|
    + (if s.out.done then 0 else 1) + (if s.err.done then 0 else 1)
    + (match s.waiter case AwaitReaders => 5 case AwaitProcess => 4 case SendResult => 3
                      case CloseWaitCh => 2 case CloseEvents => 1 case Finished => 0)
    + (match s.consumer case Ranging => 2 case Receiving => 1 case Returned(_) => 0)
    + (if s.exit.Some? then 0 else 1)
  }

  lemma StepShrinks(job: Job, s: State, a: Action)
    requires ChannelsSafe(s)
    ensures Exec(job, s, a) == s || Measure(Exec(job, s, a)) < Measure(s)
  {
    match a
    case Send(st) =>
    case Finish(st) =>
    case Wait =>
    case Exit(failed) =>
    case Consume =>
    case Receive =>
  }

  /** Until the function has returned, some goroutine can move, or all that is missing is that the
      process ends: there is no deadlock. */
  lemma NeverStuck(job: Job, actions: seq<Action>)
    requires !Run(job, actions).consumer.Returned?
    ensures var s := Run(job, actions);
            || (exists a: Action :: !a.Exit? && Exec(job, s, a) != s)
            || (s.exit.None? && s.waiter.AwaitProcess?)
  {
    Invariants(job, actions);
    var s := Run(job, actions);
    if s.exit.Some? || !s.waiter.AwaitProcess? {
      var a := Mover(job, s);
      assert Exec(job, s, a) != s;
    }
  }

  /** A step some goroutine can take. */
  lemma Mover(job: Job, s: State) returns (a: Action)
    requires ChannelsSafe(s) && !s.consumer.Returned? && (s.exit.Some? || !s.waiter.AwaitProcess?)
    ensures !a.Exit? && Exec(job, s, a) != s
  {
    if s.consumer.Receiving? {
      a := Receive;
    } else if s.queue != [] || s.closed {
      a := Consume;
    } else if s.out.todo != [] || !s.out.done {
      a := if s.out.todo != [] then Send(Stdout) else Finish(Stdout);
    } else if s.err.todo != [] || !s.err.done {
      a := if s.err.todo != [] then Send(Stderr) else Finish(Stderr);
    } else {
      a := Wait;
    }
  }

  /** Actions that all do something. */
  ghost predicate Busy(job: Job, actions: seq<Action>) {
    actions != [] ==>
      var before := actions[..|actions| - 1];
      Busy(job, before) && Exec(job, Run(job, before), actions[|actions| - 1]) != Run(job, before)
  }

  /** Every interleaving is finite: with NeverStuck, once both streams and the process end the function
      must return, after at most two steps per event and a constant. */
  lemma {:induction false} RunsAreBounded(job: Job, actions: seq<Action>)
    requires Busy(job, actions)
    ensures |actions| + Measure(Run(job, actions)) <= Measure(Init(job))
    ensures |actions| <= 2 * |Script(job, Stdout)| + 2 * |Script(job, Stderr)| + 10
  {
    if actions == [] {
    } else {
      var n := |actions| - 1;
      RunsAreBounded(job, actions[..n]);
      Invariants(job, actions[..n]);
      StepShrinks(job, Run(job, actions[..n]), actions[n]);
    }
    InitialMeasure(job);
  }

  lemma InitialMeasure(job: Job)
    ensures Measure(Init(job)) == 2 * |Script(job, Stdout)| + 2 * |Script(job, Stderr)| + 10
  {
  }
}
