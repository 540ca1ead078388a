/** Who waits for whom: the log's mutex, the holder's mutex and the signal channel between them
    (tasklog/memcache.go, tasklog/fifo.go). The contents of chunks are left to LogSpec; every action is
    what one goroutine does up to the next point where it can be held up, and an action of a goroutine
    that is held up leaves the state as it is. */
module LogLocks {
  import opened Common
  import LogSpec
  import LogProofs
  import opened Slices

  /** The goroutine of handleFifoSignal. */
  datatype Handler =
    | Waiting       // receiving from the channel
    | Woken         // about to lock the log and flush
    | Flushing      // in the loop of the flush, with the log's lock
    | Checking      // about to lock the log again, to see whether it is closed and drained
    | Closing       // closing the drained fifo, with the log's lock
    | Draining      // receiving until the channel is closed, with the log's lock
    | Leaving       // the channel is closed; about to lock the log and close it
    | LeavingClose  // closing the fifo, with the log's lock
    | Gone
    | Jammed        // about to lock the log from inside the flush, to close it

  /** A client inside the log's lock that goes on to the holder. */
  datatype Client =
    | Writing
    | ClosingFifo
    | Stalled       // refused; about to lock the log once more, to close it

  datatype State = State(
    logClosed: bool,
    chunks: nat,
    client: Option<Client>,
    handler: Handler,
    holderClosed: bool,
    installed: bool,
    opener: bool,        // a goroutine is on its way to install a fifo
    sending: bool,       // that goroutine, with the holder's lock, sends on the channel
    late: bool,          // the goroutine that Signal starts for a fifo already installed
    channelClosed: bool)

  /** What a write to an installed fifo does; rest tells whether bytes are left over. */
  datatype Answer = Whole | Fails(rest: bool)

  /** Take is the handler's other choice at the channel: the signal of the late goroutine. */
  datatype Action = Write | Close | GoClient(a: Answer) | GoHandler(a: Answer) | Take | GoOpener(ok: bool)

  /** How far the first opener was when the log registered its channel. */
  datatype Start = Opening | Installed | Failed

  function New(start: Start): State {
    State(false, 0, None, Waiting, start.Failed?, start.Installed?, start.Opening?, false, start.Installed?, false)
  }

  predicate LogLocked(s: State) {
    || s.client.Some?
    || s.handler.Flushing? || s.handler.Closing? || s.handler.Draining? || s.handler.LeavingClose? || s.handler.Jammed?
  }

  function CloseHolder(s: State): State {
    if s.holderClosed then s else s.(holderClosed := true, installed := false, channelClosed := true)
  }

  /** A push into a buffer of n chunks. */
  function Push(n: nat): nat {
    if n < LogSpec.MEM_LIMIT then n + 1 else n
  }

  /** The fifo's part of a write that finds the holder open: failing resets it. */
  function AfterFifo(s: State, a: Answer): State {
    if s.installed && a.Fails? then s.(installed := false, opener := true) else s
  }

  /** Whether that write leaves something for the buffer. */
  predicate LeavesRest(s: State, a: Answer) {
    if s.installed then a.Fails? && a.rest else true
  }

  /** The late goroutine sends on a closed channel: the process panics and nothing moves any more. */
  predicate Crashed(s: State) {
    s.late && s.channelClosed
  }

  function Step(s: State, act: Action): State {
    if Crashed(s) then s else Act(s, act)
  }

  function Act(s: State, act: Action): State {
    match act
    case Write =>
      if LogLocked(s) || s.logClosed then s
      else if s.chunks == 0 then s.(client := Some(Writing))
      else s.(chunks := Push(s.chunks))
    case Close =>
      if LogLocked(s) then s
      else s.(logClosed := true, client := if s.chunks == 0 then Some(ClosingFifo) else None)
    case GoClient(a) => if s.sending || s.client.None? then s else ClientStep(s, a)
    case GoHandler(a) => HandlerStep(s, a)
    case Take =>
      if s.handler.Waiting? && s.late then s.(handler := Woken, late := false) else s
    case GoOpener(ok) =>
      if !s.opener || s.sending then s
      else if !ok then CloseHolder(s.(opener := false))
      else if s.holderClosed then s.(opener := false)
      else s.(opener := false, installed := true, sending := true)
  }

  function ClientStep(s: State, a: Answer): State
    requires s.client.Some?
  {
    match s.client.value
    case Writing =>
      if s.holderClosed then s.(client := Some(Stalled))
      else AfterFifo(s, a).(client := None, chunks := if LeavesRest(s, a) then 1 else 0)
    case ClosingFifo => CloseHolder(s).(client := None)
    case Stalled => if LogLocked(s) then s else s.(client := None, logClosed := true)
  }

  function HandlerStep(s: State, a: Answer): State {
    match s.handler
    case Waiting =>
      if s.sending then s.(handler := Woken, sending := false)
      else if s.channelClosed then s.(handler := Leaving)
      else s
    case Woken => if LogLocked(s) then s else s.(handler := Flushing)
    case Flushing => if s.chunks == 0 then s.(handler := Checking) else FlushStep(s, a)
    case Checking =>
      if LogLocked(s) then s else s.(handler := if s.logClosed && s.chunks == 0 then Closing else Waiting)
    case Closing => if s.sending then s else CloseHolder(s).(handler := Draining)
    case Draining => if s.channelClosed then s.(handler := Leaving) else s
    case Leaving =>
      if LogLocked(s) then s else s.(logClosed := true, handler := if s.chunks == 0 then LeavingClose else Gone)
    case LeavingClose => if s.sending then s else CloseHolder(s).(handler := Gone)
    case Gone => s
    case Jammed => if LogLocked(s) then s else s.(handler := Checking, logClosed := true)
  }

  /** One turn of the flush loop: the chunk leaves the buffer, or its rest goes to the tail. */
  function FlushStep(s: State, a: Answer): State
    requires s.chunks > 0
  {
    if s.sending then s
    else if s.holderClosed then s.(handler := Jammed)
    else AfterFifo(s, a).(chunks := if LeavesRest(s, a) && s.chunks < LogSpec.MEM_LIMIT then s.chunks else s.chunks - 1)
  }

  function Run(s: State, acts: seq<Action>): State
    decreases |acts|
  {
    if acts == [] then s else Run(Step(s, acts[0]), acts[1..])
  }

  /** The handler has not seen the end of the channel. */
  predicate Attentive(h: Handler) {
    h.Waiting? || h.Woken? || h.Flushing? || h.Checking? || h.Closing?
  }

  /** The locks exclude each other, the holder has one fifo or one opener, and a buffer that nobody is
      about to flush has a signal on its way. */
  predicate Inv(s: State) {
    && (s.client.Some? ==> !s.handler.Flushing? && !s.handler.Closing? && !s.handler.Draining?
                           && !s.handler.LeavingClose? && !s.handler.Jammed?)
    && (s.client.Some? && !s.client.value.Stalled? ==> s.chunks == 0)
    && (s.handler.Closing? ==> s.logClosed && s.chunks == 0)
    && (s.holderClosed ==> !s.installed && !s.sending)
    && (!s.holderClosed ==> s.opener != s.installed)
    && (s.sending ==> s.installed)
    && (s.channelClosed ==> s.holderClosed)
    && (s.late && s.holderClosed ==> s.channelClosed)
    && (!s.holderClosed ==> Attentive(s.handler) && s.client != Some(Stalled))
    && Heard(s)
  }

  /** A flush is under way or a goroutine that reopens the fifo will ask for one. */
  predicate Heard(s: State) {
    s.chunks > 0 && !s.holderClosed ==> s.handler.Woken? || s.handler.Flushing? || s.opener || s.sending
  }

  lemma ClientKeepsInv(s: State, a: Answer)
    requires Inv(s) && s.client.Some? && !s.sending
    ensures Inv(ClientStep(s, a))
  {
  }

  lemma FlushKeepsInv(s: State, a: Answer)
    requires Inv(s) && s.handler.Flushing? && s.chunks > 0
    ensures Inv(FlushStep(s, a))
  {
  }

  lemma HandlerKeepsInv(s: State, a: Answer)
    requires Inv(s)
    ensures Inv(HandlerStep(s, a))
  {
    if s.handler.Flushing? && s.chunks > 0 {
      FlushKeepsInv(s, a);
    }
  }

  lemma StepKeepsInv(s: State, act: Action)
    requires Inv(s)
    ensures Inv(Step(s, act))
  {
    if Crashed(s) {
      return;
    }
    match act
    case GoClient(a) =>
      if !s.sending && s.client.Some? {
        ClientKeepsInv(s, a);
      }
    case GoHandler(a) => HandlerKeepsInv(s, a);
    case _ =>
  }

  lemma {:induction false} RunKeepsInv(s: State, acts: seq<Action>)
    requires Inv(s)
    ensures Inv(Run(s, acts))
    decreases |acts|
  {
    if acts != [] {
      StepKeepsInv(s, acts[0]);
      RunKeepsInv(Step(s, acts[0]), acts[1..]);
    }
  }

  // ---- Main results, over every interleaving ----

  /** No wakeup is lost: a log that buffers while its holder is open is being flushed, or the goroutine that
      reopens the fifo and then signals the handler is still on its way. The late signal is not needed. */
  lemma NoWakeupIsLost(start: Start, acts: seq<Action>)
    requires var s := Run(New(start), acts); s.chunks > 0 && !s.holderClosed
    ensures var s := Run(New(start), acts); s.handler.Woken? || s.handler.Flushing? || s.opener || s.sending
  {
    RunKeepsInv(New(start), acts);
  }

  /** The handler can get back to the channel without the holder's lock. */
  predicate CanReceive(s: State) {
    match s.handler
    case Waiting => true
    case Woken => s.client.None? && s.chunks == 0 && !s.logClosed
    case Flushing => s.chunks == 0 && !s.logClosed
    case Checking => s.client.None? && !(s.chunks == 0 && s.logClosed)
    case _ => false
  }

  lemma {:induction false} StuckIsForever(s: State, acts: seq<Action>)
    requires Inv(s) && s.sending && !CanReceive(s)
    ensures var t := Run(s, acts); t.sending && t.installed && t.handler != Waiting && s.chunks <= t.chunks
    decreases |acts|
  {
    if acts != [] {
      StepKeepsInv(s, acts[0]);
      StuckIsForever(Step(s, acts[0]), acts[1..]);
    }
  }

  /** The way out: the handler goes back to the channel and receives. */
  function WayOut(h: Handler): seq<Action> {
    var go := GoHandler(Whole);
    match h
    case Woken => [go, go, go, go]
    case Flushing => [go, go, go]
    case Checking => [go, go]
    case _ => [go]
  }

  lemma {:induction false} WayOutLeads(s: State)
    requires Inv(s) && s.sending && CanReceive(s)
    ensures var t := Run(s, WayOut(s.handler)); Inv(t) && !t.sending && !t.holderClosed && t.late == s.late
    decreases |WayOut(s.handler)|
  {
    var t := Step(s, GoHandler(Whole));
    if s.handler.Waiting? {
      assert [GoHandler(Whole)][1..] == [];
    } else {
      StepKeepsInv(s, GoHandler(Whole));
      assert WayOut(s.handler)[1..] == WayOut(t.handler);
      WayOutLeads(t);
    }
  }

  /** A goroutine that sends the signal holds the holder's lock. It is held up for good, and no buffered
      chunk ever leaves, exactly if the handler has to pass that lock, or wait for someone who does,
      before it listens again. */
  lemma DeadlocksExactly(start: Start, acts: seq<Action>)
    requires Run(New(start), acts).sending
    ensures var s := Run(New(start), acts);
            && ((forall more :: Run(s, more).sending) <==> !CanReceive(s))
            && (!CanReceive(s) ==> forall more :: s.chunks <= Run(s, more).chunks)
  {
    RunKeepsInv(New(start), acts);
    var s := Run(New(start), acts);
    if CanReceive(s) {
      WayOutLeads(s);
    } else {
      forall more ensures Run(s, more).sending && s.chunks <= Run(s, more).chunks {
        StuckIsForever(s, more);
      }
    }
  }

  /** It does happen: between the signal and the flush, one write fails with bytes left over and the
      fifo is reopened. */
  lemma DeadlockIsReachable()
    ensures var s := Run(New(Opening), [GoOpener(true), GoHandler(Whole), Write, GoClient(Fails(true)),
                                        GoOpener(true)]);
            s.sending && s.chunks == 1 && !CanReceive(s)
  {
    var acts := [GoOpener(true), GoHandler(Whole), Write, GoClient(Fails(true)), GoOpener(true)];
    assert acts[1..][1..] == [Write, GoClient(Fails(true)), GoOpener(true)];
    assert acts[1..][1..][1..][1..] == [GoOpener(true)];
    var s := Step(Step(New(Opening), acts[0]), acts[1]);
    var t := Step(Step(s, Write), GoClient(Fails(true)));
    assert Run(s, acts[1..][1..]) == Run(t, [GoOpener(true)]);
  }

  /** No write to an installed fifo fails. */
  predicate Healthy(act: Action) {
    act.GoClient? || act.GoHandler? ==> act.a.Whole?
  }

  /** While no write fails there is one signal at most, and the handler still waits for it. */
  predicate Calm(s: State) {
    (s.opener && !s.holderClosed) || s.sending ==> s.handler.Waiting? && !s.late
  }

  lemma StepKeepsCalm(s: State, act: Action)
    requires Inv(s) && Calm(s) && Healthy(act)
    ensures Calm(Step(s, act))
  {
    if Crashed(s) {
      return;
    }
    match act
    case GoHandler(a) => HandlerStaysCalm(s, a);
    case _ =>
  }

  lemma HandlerStaysCalm(s: State, a: Answer)
    requires Inv(s) && Calm(s) && a.Whole?
    ensures Calm(HandlerStep(s, a))
  {
  }

  lemma {:induction false} HealthyStaysCalm(s: State, acts: seq<Action>)
    requires Inv(s) && Calm(s) && forall act :: act in acts ==> Healthy(act)
    ensures Inv(Run(s, acts)) && Calm(Run(s, acts))
    decreases |acts|
  {
    if acts != [] {
      assert acts[0] in acts && forall act :: act in acts[1..] ==> act in acts;
      StepKeepsInv(s, acts[0]);
      StepKeepsCalm(s, acts[0]);
      HealthyStaysCalm(Step(s, acts[0]), acts[1..]);
    }
  }

  /** Only failing writes can do it: as long as every write to an open fifo succeeds, the handler
      listens whenever somebody sends. */
  lemma HealthyNeverDeadlocks(start: Start, acts: seq<Action>)
    requires (forall act :: act in acts ==> Healthy(act)) && Run(New(start), acts).sending
    ensures CanReceive(Run(New(start), acts))
  {
    HealthyStaysCalm(New(start), acts);
  }

  /** Somebody inside the log's lock is about to lock it again. */
  predicate LogDead(s: State) {
    s.client == Some(Stalled) || s.handler.Jammed?
  }

  /** Whatever happens, a client stays inside the log's lock. */
  ghost predicate NeverReturns(s: State) {
    forall more :: Run(s, more).client.Some?
  }

  /** A write that meets a closed holder closes the log under its own lock and never returns. */
  lemma RefusalIsFatalExactly(start: Start, before: seq<Action>, a: Answer)
    requires var s := Run(New(start), before); s.client == Some(Writing) && !s.sending
    ensures var s := Run(New(start), before);
            NeverReturns(Step(s, GoClient(a))) <==> s.holderClosed
  {
    RunKeepsInv(New(start), before);
    var s := Run(New(start), before);
    var t := Step(s, GoClient(a));
    if s.holderClosed {
      forall more ensures Run(t, more).client.Some? {
        if Crashed(s) {
          CrashIsForever(s, more);
        } else {
          DeadIsForever(t, more);
        }
      }
    } else {
      var none: seq<Action> := [];
      assert t.client.None? && Run(t, none) == t;
      assert !NeverReturns(t);
    }
  }

  lemma {:induction false} CrashIsForever(s: State, acts: seq<Action>)
    requires Crashed(s)
    ensures Run(s, acts) == s
    decreases |acts|
  {
    if acts != [] {
      CrashIsForever(s, acts[1..]);
    }
  }

  lemma {:induction false} DeadIsForever(s: State, acts: seq<Action>)
    requires LogDead(s) && Inv(s)
    ensures LogDead(Run(s, acts)) && LogLocked(Run(s, acts))
    ensures s.client == Some(Stalled) ==> Run(s, acts).client == Some(Stalled)
    decreases |acts|
  {
    if acts != [] {
      StepKeepsInv(s, acts[0]);
      DeadIsForever(Step(s, acts[0]), acts[1..]);
    }
  }

  /** It takes a fifo that cannot be opened and a write that comes before the handler has closed the log. */
  lemma RefusalIsReachable()
    ensures Run(New(Opening), [GoOpener(false), Write, GoClient(Whole)]).client == Some(Stalled)
  {
    var acts := [GoOpener(false), Write, GoClient(Whole)];
    assert acts[1..][1..] == [GoClient(Whole)];
    assert Run(Step(Step(New(Opening), acts[0]), acts[1]), [GoClient(Whole)]).client == Some(Stalled);
  }

  // ---- What each goroutine does ----

  /** The fifo's answer in the words of LogSpec, for a write of which it takes n bytes before it fails. */
  function Outcome(s: State, a: Answer, n: nat): LogSpec.Outcome {
    if s.holderClosed then LogSpec.Refused
    else if !s.installed then LogSpec.NotOpened
    else if a.Whole? then LogSpec.Wrote
    else LogSpec.Failed(n)
  }

  /** The chunks counted here are those of LogSpec: after a write to an empty buffer, */
  lemma ClientCountsChunks(s: State, l: LogSpec.Log, b: Slice, a: Answer, n: nat)
    requires s.client == Some(Writing) && !s.holderClosed && b.Data?
    requires l.buffer == [] && !l.closed && (a.Fails? ==> (a.rest <==> n < |b.bytes|))
    ensures ClientStep(s, a).chunks == |LogSpec.AfterWrite(l, b, Outcome(s, a, n)).buffer|
    ensures ClientStep(s, a).client.None?
  {
  }

  /** after one behind other chunks, */
  lemma WriteCountsChunks(s: State, l: LogSpec.Log, b: Slice, o: LogSpec.Outcome)
    requires !Crashed(s) && !LogLocked(s) && !s.logClosed && s.chunks == |l.buffer| > 0
    requires LogProofs.Bounded(l) && !l.closed && b.Data?
    ensures Step(s, Write).chunks == |LogSpec.AfterWrite(l, b, o).buffer|
  {
  }

  /** and after a turn of the flush. */
  lemma FlushCountsChunks(s: State, l: LogSpec.Log, a: Answer, n: nat)
    requires !s.sending && !s.holderClosed && s.chunks == |l.buffer| > 0 && LogProofs.Bounded(l)
    requires a.Fails? ==> (a.rest <==> n < |Bytes(l.buffer[0])|)
    ensures FlushStep(s, a).chunks == |LogSpec.FlushTurn(l, Outcome(s, a, n)).buffer|
  {
  }

  /** A write that fails takes the fifo away and starts an opener, and only such a write does. */
  lemma FailureReopens(s: State, a: Answer)
    requires !s.sending && !s.holderClosed && Inv(s)
    ensures s.client == Some(Writing) ==>
              var t := ClientStep(s, a);
              if s.installed && a.Fails? then !t.installed && t.opener
              else t.installed == s.installed && t.opener == s.opener
    ensures s.handler.Flushing? && s.chunks > 0 ==>
              var t := FlushStep(s, a);
              if s.installed && a.Fails? then !t.installed && t.opener
              else t.installed == s.installed && t.opener == s.opener
  {
  }

  /** The handler takes n steps and no write fails. */
  function Handles(s: State, n: nat): State
    decreases n
  {
    if n == 0 then s else Handles(Step(s, GoHandler(Whole)), n - 1)
  }

  /** A flush to a fifo that takes all of its chunks empties the buffer and goes back to the channel, unless
      the log was closed meanwhile: then it closes the holder. */
  lemma {:induction false} HealthyFlushDrains(s: State)
    requires Inv(s) && !Crashed(s) && s.handler.Flushing? && s.installed && !s.sending
    ensures Handles(s, s.chunks) == s.(chunks := 0)
    ensures Handles(s.(chunks := 0), 2) == s.(chunks := 0, handler := if s.logClosed then Closing else Waiting)
    decreases s.chunks
  {
    if s.chunks > 0 {
      var t := Step(s, GoHandler(Whole));
      StepKeepsInv(s, GoHandler(Whole));
      assert t == s.(chunks := s.chunks - 1);
      HealthyFlushDrains(t);
    }
    var u := s.(chunks := 0);
    var v := Step(u, GoHandler(Whole));
    assert v == u.(handler := Checking);
    assert Handles(v, 1) == Handles(Step(v, GoHandler(Whole)), 0);
  }

  /** An opener that succeeds installs its fifo and signals, and the handler that listens wakes up; one that
      fails closes the holder, and with it the channel. */
  lemma OpenerSignals(s: State)
    requires Inv(s) && !Crashed(s) && s.opener && !s.sending && !s.holderClosed
    ensures var t := Step(s, GoOpener(true));
            && t == s.(opener := false, installed := true, sending := true)
            && (s.handler.Waiting? ==> Step(t, GoHandler(Whole)) == t.(sending := false, handler := Woken))
    ensures Step(s, GoOpener(false)) == s.(opener := false, holderClosed := true, channelClosed := true)
  {
  }

  /** Either signal gets a handler that listens to the flush as soon as the log is free. */
  lemma SignalsWake(s: State)
    requires !Crashed(s) && s.handler.Waiting? && !LogLocked(s)
    ensures s.late ==> Step(Step(s, Take), GoHandler(Whole)) == s.(late := false, handler := Flushing)
    ensures s.sending ==> Handles(s, 2) == s.(sending := false, handler := Flushing)
  {
    var t := Step(s, GoHandler(Whole));
    assert Handles(t, 1) == Handles(Step(t, GoHandler(Whole)), 0);
  }

  lemma {:induction false} GoneStays(s: State, n: nat)
    requires s.handler.Gone?
    ensures Handles(s, n) == s
    decreases n
  {
    if n > 0 {
      GoneStays(Step(s, GoHandler(Whole)), n - 1);
    }
  }

  predicate Over(s: State) {
    !Crashed(s) && !s.sending && s.client.None? && s.channelClosed && s.holderClosed && !s.installed
  }

  lemma LeavingCloses(s: State, n: nat)
    requires Over(s) && s.handler.Leaving? && n >= 2
    ensures Handles(s, n) == s.(logClosed := true, handler := Gone)
  {
    var t := Step(s, GoHandler(Whole));
    if t.handler.Gone? {
      GoneStays(t, n - 1);
    } else {
      assert Step(t, GoHandler(Whole)) == s.(logClosed := true, handler := Gone);
      GoneStays(Step(t, GoHandler(Whole)), n - 2);
    }
  }

  /** A handler that finds the channel closed leaves within three steps, with the log closed and the buffer as it
      was. */
  lemma HandlerClosesLog(s: State, n: nat)
    requires Over(s) && (s.handler.Waiting? || s.handler.Draining?) && n >= 3
    ensures Handles(s, n) == s.(logClosed := true, handler := Gone)
  {
    var t := Step(s, GoHandler(Whole));
    assert t == s.(handler := Leaving);
    LeavingCloses(t, n - 1);
  }

  /** One that finds the closed log drained closes the holder, and its channel, before it does the same. */
  lemma HandlerClosesHolder(s: State, n: nat)
    requires !Crashed(s) && !s.late && !s.sending && s.client.None? && !s.holderClosed
    requires s.handler.Closing? && n >= 4
    ensures Handles(s, n)
            == s.(holderClosed := true, installed := false, channelClosed := true, logClosed := true, handler := Gone)
  {
    var t := Step(s, GoHandler(Whole));
    assert t == CloseHolder(s).(handler := Draining);
    HandlerClosesLog(t, n - 1);
  }

  /** A client that closes the log closes the holder too if the buffer is empty, once it gets its lock. */
  lemma ClientCloses(s: State)
    requires Inv(s) && !Crashed(s) && !LogLocked(s)
    ensures Step(s, Close).logClosed
    ensures s.chunks == 0 && !s.sending ==>
              var t := Step(Step(s, Close), GoClient(Whole)); t.holderClosed && !t.installed && t.client.None?
    ensures s.chunks > 0 ==> Step(s, Close) == s.(logClosed := true)
  {
  }

  // ---- The late signal ----

  lemma {:induction false} Concat(s: State, a: seq<Action>, b: seq<Action>)
    ensures Run(s, a + b) == Run(Run(s, a), b)
    decreases |a|
  {
    if a == [] {
      assert a + b == b;
    } else {
      assert (a + b)[1..] == a[1..] + b;
      Concat(Step(s, a[0]), a[1..], b);
    }
  }

  lemma RunOne(s: State, a: Action)
    ensures Run(s, [a]) == Step(s, a)
  {
    assert [a][1..] == [];
  }

  lemma RunTwo(s: State, a: Action, b: Action)
    ensures Run(s, [a, b]) == Step(Step(s, a), b)
  {
    assert [a, b][1..] == [b];
    RunOne(Step(s, a), b);
  }

  /** Without a late signal there is none later, and a closed channel is closed. */
  lemma {:induction false} SafeIsForever(s: State, acts: seq<Action>)
    requires Inv(s) && !s.late
    ensures !Run(s, acts).late
    decreases |acts|
  {
    if acts != [] {
      StepKeepsInv(s, acts[0]);
      SafeIsForever(Step(s, acts[0]), acts[1..]);
    }
  }

  /** The late goroutine has not sent, and the holder is open with its lock free. */
  predicate Exposed(s: State) {
    Inv(s) && s.late && !s.holderClosed && !s.sending
  }

  /** An opener that fails closes the holder. */
  lemma OpenerCrashes(s: State)
    requires Exposed(s) && s.opener
    ensures Crashed(Run(s, [GoOpener(false)]))
  {
    RunOne(s, GoOpener(false));
  }

  /** So does a client that closes a log with an empty buffer. */
  lemma CloseCrashes(s: State)
    requires Exposed(s) && s.chunks == 0 && !LogLocked(s)
    ensures Crashed(Run(s, [Close, GoClient(Whole)]))
  {
    RunTwo(s, Close, GoClient(Whole));
  }

  lemma ClientCrashes(s: State) returns (acts: seq<Action>)
    requires Exposed(s) && s.client.Some?
    ensures Crashed(Run(s, acts))
  {
    if s.client.value.ClosingFifo? {
      acts := [GoClient(Whole)];
      RunOne(s, GoClient(Whole));
    } else {
      acts := [GoClient(Fails(false)), GoOpener(false)];
      if s.opener {
        OpenerCrashes(s);
        return [GoOpener(false)];
      }
      RunTwo(s, GoClient(Fails(false)), GoOpener(false));
    }
  }

  lemma FlushCrashes(s: State) returns (acts: seq<Action>)
    requires Exposed(s) && !s.opener && s.handler.Flushing?
    ensures Crashed(Run(s, acts))
  {
    if s.chunks > 0 {
      acts := [GoHandler(Fails(false)), GoOpener(false)];
      RunTwo(s, GoHandler(Fails(false)), GoOpener(false));
    } else {
      var go := GoHandler(Whole);
      StepKeepsInv(s, go);
      RunOne(s, go);
      CloseCrashes(Step(s, go));
      Concat(s, [go], [Close, GoClient(Whole)]);
      acts := [go] + [Close, GoClient(Whole)];
    }
  }

  lemma HandlerCrashes(s: State) returns (acts: seq<Action>)
    requires Exposed(s) && !s.opener && s.client.None?
    ensures Crashed(Run(s, acts))
  {
    var go := GoHandler(Whole);
    RunOne(s, go);
    if s.handler.Closing? {
      return [go];
    }
    if s.handler.Flushing? {
      acts := FlushCrashes(s);
    } else if s.chunks == 0 {
      CloseCrashes(s);
      acts := [Close, GoClient(Whole)];
    } else {
      StepKeepsInv(s, go);
      var more := FlushCrashes(Step(s, go));
      Concat(s, [go], more);
      acts := [go] + more;
    }
  }

  lemma ExposedCrashes(s: State) returns (acts: seq<Action>)
    requires Exposed(s)
    ensures Crashed(Run(s, acts))
  {
    if s.opener {
      OpenerCrashes(s);
      acts := [GoOpener(false)];
    } else if s.client.Some? {
      acts := ClientCrashes(s);
    } else {
      acts := HandlerCrashes(s);
    }
  }

  /** A continuation in which the process panics. */
  ghost predicate CanCrash(s: State) {
    exists more :: Crashed(Run(s, more))
  }

  /** The panic can still come exactly as long as the late goroutine has not sent, the holder is open and
      log and holder are not deadlocked; or it has come. */
  lemma CrashesExactly(start: Start, acts: seq<Action>)
    ensures var s := Run(New(start), acts);
            CanCrash(s) <==> s.late && (s.holderClosed || !s.sending || CanReceive(s))
  {
    RunKeepsInv(New(start), acts);
    var s := Run(New(start), acts);
    if !s.late {
      forall more ensures !Crashed(Run(s, more)) {
        SafeIsForever(s, more);
      }
    } else if s.holderClosed {
      var none: seq<Action> := [];
      assert Run(s, none) == s;
    } else if !s.sending {
      var more := ExposedCrashes(s);
    } else if CanReceive(s) {
      WayOutLeads(s);
      var more := ExposedCrashes(Run(s, WayOut(s.handler)));
      Concat(s, WayOut(s.handler), more);
      assert Crashed(Run(s, WayOut(s.handler) + more));
    } else {
      forall more ensures !Crashed(Run(s, more)) {
        StuckIsOpen(s, more);
      }
    }
  }

  lemma StuckIsOpen(s: State, more: seq<Action>)
    requires Inv(s) && s.sending && !CanReceive(s)
    ensures !Crashed(Run(s, more))
  {
    StuckIsForever(s, more);
    RunKeepsInv(s, more);
  }

  /** A client that closes the log at once is enough. */
  lemma CrashIsReachable()
    ensures Crashed(Run(New(Installed), [Close, GoClient(Whole)]))
  {
    CloseCrashes(New(Installed));
  }
}
