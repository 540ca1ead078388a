/** The init process's states and what each call does in them (process/init_state.go, process/init.go,
    process/deleted_state.go). Foreign calls answer with ok; a channel is counted by its closes. */
module InitSpec {
  import opened Common

  datatype State = Created | CreatedCheckpoint | Running | Paused | Stopped | Deleted

  datatype Err = NoError | NotAllowed | NotFound | Foreign | Illegal

  datatype Op =
    | Start(ok: bool, pid: nat)
    | Delete(ok: bool)
    | Pause(ok: bool)
    | Resume(ok: bool)
    | Update(ok: bool)
    | Checkpoint(ok: bool)
    | Exec(ok: bool)
    | Kill(ok: bool)
    | SetExited(code: int, now: nat)

  datatype Init = Init(state: State, status: int, exited: Option<nat>, pid: nat, waitCloses: nat)

  function New(checkpoint: bool, pid: nat): Init {
    Init(if checkpoint then CreatedCheckpoint else Created, 0, None, if checkpoint then 0 else pid, 0)
  }

  /** The transition tables of the six states. */
  predicate Legal(from: State, to: State) {
    match from
    case Created => to.Running? || to.Stopped? || to.Deleted?
    case CreatedCheckpoint => to.Running? || to.Stopped? || to.Deleted?
    case Running => to.Stopped? || to.Paused?
    case Paused => to.Running? || to.Stopped?
    case Stopped => to.Deleted?
    case Deleted => false
  }

  function Goto(s: Init, to: State): (Init, Err) {
    if Legal(s.state, to) then (s.(state := to), NoError) else (s, Illegal)
  }

  /** A foreign call that may be followed by a transition. */
  function Then(ok: bool, s: Init, to: State): (Init, Err) {
    if ok then Goto(s, to) else (s, Foreign)
  }

  function Call(ok: bool, s: Init): (Init, Err) {
    (s, if ok then NoError else Foreign)
  }

  function SetExitedFields(s: Init, code: int, now: nat): Init {
    s.(exited := Some(now), status := code, waitCloses := s.waitCloses + 1)
  }

  function Step(s: Init, op: Op): (Init, Err) {
    match op
    case Start(ok, pid) =>
      if s.state.Created? then Then(ok, s, Running)
      else if s.state.CreatedCheckpoint? then Then(ok, if ok then s.(pid := pid) else s, Running)
      else (s, NotAllowed)
    case Delete(ok) =>
      if s.state.Deleted? then (s, NotFound)
      else if s.state.Running? || s.state.Paused? then (s, NotAllowed)
      else Then(ok, s, Deleted)
    case Pause(ok) => if s.state.Running? then Then(ok, s, Paused) else (s, NotAllowed)
    case Resume(ok) => if s.state.Paused? then Then(ok, s, Running) else (s, NotAllowed)
    case Update(ok) => if s.state.Stopped? || s.state.Deleted? then (s, NotAllowed) else Call(ok, s)
    case Checkpoint(ok) => if s.state.Running? || s.state.Paused? then Call(ok, s) else (s, NotAllowed)
    case Exec(ok) => if s.state.Created? || s.state.Running? then Call(ok, s) else (s, NotAllowed)
    case Kill(ok) => if s.state.Deleted? then (s, NotFound) else Call(ok, s)
    case SetExited(code, now) =>
      if s.state.Stopped? || s.state.Deleted? then (s, NoError)
      else Goto(SetExitedFields(s, code, now), Stopped)
  }

  function Run(s: Init, ops: seq<Op>): Init
    decreases |ops|
  {
    if ops == [] then s else Run(Step(s, ops[0]).0, ops[1..])
  }

  /** The wait channel is closed exactly when an exit was recorded, which a stopped process has and
      an older phase has not. */
  predicate Inv(s: Init) {
    && s.waitCloses == (if s.exited.Some? then 1 else 0)
    && (s.state.Stopped? ==> s.exited.Some?)
    && (Phase(s.state) < 2 ==> s.exited.None?)
  }

  function Phase(st: State): nat {
    match st
    case Created => 0
    case CreatedCheckpoint => 0
    case Running => 1
    case Paused => 1
    case Stopped => 2
    case Deleted => 3
  }

  /** What a later state may change of an earlier one. */
  predicate Later(s: Init, t: Init) {
    && Phase(s.state) <= Phase(t.state)
    && (s.exited.Some? ==> t.exited == s.exited && t.status == s.status && t.waitCloses == s.waitCloses)
  }

  lemma StepKeepsInv(s: Init, op: Op)
    requires Inv(s)
    ensures Inv(Step(s, op).0) && Later(s, Step(s, op).0) && !Step(s, op).1.Illegal?
    ensures Step(s, op).0.exited != s.exited || Step(s, op).0.status != s.status ==>
              op.SetExited? && Phase(s.state) < 2 && Step(s, op).0.state.Stopped?
  {
  }

  /** Over every run: the wait channel closes at most once, and is closed whenever the process is
      stopped; the phase never goes back; an exit is recorded once and never changes. */
  lemma {:induction false} Lifecycle(s: Init, ops: seq<Op>)
    requires Inv(s)
    ensures Inv(Run(s, ops)) && Later(s, Run(s, ops))
    decreases |ops|
  {
    if ops != [] {
      StepKeepsInv(s, ops[0]);
      Lifecycle(Step(s, ops[0]).0, ops[1..]);
    }
  }

  // ---- What each operation does ----

  /** The exit that is recorded is the one reported: status and time of the first exit, from a process that
      has not stopped, are what every continuation reads. */
  lemma ExitIsRecorded(checkpoint: bool, pid: nat, before: seq<Op>, code: int, now: nat, after: seq<Op>)
    requires Phase(Run(New(checkpoint, pid), before).state) < 2
    ensures var t := Run(Step(Run(New(checkpoint, pid), before), SetExited(code, now)).0, after);
            t.status == code && t.exited == Some(now) && t.waitCloses == 1 && Phase(t.state) >= 2
  {
    var s := Run(New(checkpoint, pid), before);
    Lifecycle(New(checkpoint, pid), before);
    StepKeepsInv(s, SetExited(code, now));
    Lifecycle(Step(s, SetExited(code, now)).0, after);
  }

  /** An exit reported later changes nothing. */
  lemma LateExitIsIgnored(s: Init, code: int, now: nat)
    requires Phase(s.state) >= 2
    ensures Step(s, SetExited(code, now)) == (s, NoError)
  {
  }

  /** Which call makes which state, and that one that fails changes nothing. A process restored from a
      checkpoint learns its pid when it starts, any other has it from its creation. */
  lemma CallsMove(s: Init, ok: bool, pid: nat)
    ensures var (t, err) := Step(s, Start(ok, pid));
            && (err.NoError? <==> Phase(s.state) == 0 && ok)
            && t == (if err.NoError? then s.(state := Running, pid := if s.state.Created? then s.pid else pid) else s)
    ensures var (t, err) := Step(s, Delete(ok));
            && (err.NoError? <==> (Phase(s.state) == 0 || s.state.Stopped?) && ok)
            && t == (if err.NoError? then s.(state := State.Deleted) else s)
    ensures var (t, err) := Step(s, Pause(ok));
            && (err.NoError? <==> s.state.Running? && ok)
            && t == (if err.NoError? then s.(state := Paused) else s)
    ensures var (t, err) := Step(s, Resume(ok));
            && (err.NoError? <==> s.state.Paused? && ok)
            && t == (if err.NoError? then s.(state := Running) else s)
  {
  }

  /** The calls that leave the process as it is, and when they succeed. */
  lemma CallsStay(s: Init, ok: bool)
    ensures Step(s, Update(ok)).0 == Step(s, Checkpoint(ok)).0 == Step(s, Exec(ok)).0 == Step(s, Kill(ok)).0 == s
    ensures Step(s, Update(ok)).1.NoError? <==> Phase(s.state) < 2 && ok
    ensures Step(s, Checkpoint(ok)).1.NoError? <==> Phase(s.state) == 1 && ok
    ensures Step(s, Exec(ok)).1.NoError? <==> (s.state.Created? || s.state.Running?) && ok
    ensures Step(s, Kill(ok)).1.NoError? <==> !s.state.Deleted? && ok
    ensures Step(s, Kill(ok)).1.NotFound? <==> s.state.Deleted?
  {
  }

  /** Why a call fails. Only a deleted process answers that it is not found, and only to be killed or deleted
      again; any other state that does not take the call refuses; all else comes from the runtime. */
  lemma CallsRefuse(s: Init, op: Op)
    ensures var err := Step(s, op).1;
            && (err.NotFound? <==> s.state.Deleted? && (op.Delete? || op.Kill?))
            && (err.NotAllowed? <==>
                  || (op.Start? && Phase(s.state) != 0)
                  || (op.Delete? && Phase(s.state) == 1)
                  || (op.Pause? && !s.state.Running?)
                  || (op.Resume? && !s.state.Paused?)
                  || (op.Update? && Phase(s.state) >= 2)
                  || (op.Checkpoint? && Phase(s.state) != 1)
                  || (op.Exec? && !s.state.Created? && !s.state.Running?))
            && (err.Foreign? ==> !op.SetExited? && !op.ok)
  {
  }

  /** Whoever waits on a process that gets deleted is let go exactly if it was stopped first: deleting
      a created process leaves the channel open for good. */
  lemma DeleteReleasesWaitersExactly(checkpoint: bool, pid: nat, before: seq<Op>, after: seq<Op>)
    requires Step(Run(New(checkpoint, pid), before), Delete(true)).1.NoError?
    ensures var s := Run(New(checkpoint, pid), before);
            Run(Step(s, Delete(true)).0, after).waitCloses == 1 <==> s.state.Stopped?
  {
    var s := Run(New(checkpoint, pid), before);
    Lifecycle(New(checkpoint, pid), before);
    DeletedIsFinal(Step(s, Delete(true)).0, after);
  }

  /** It does: nobody who waits on a process that was deleted without running is ever let go. */
  lemma DeletedUnstartedHoldsWaiters(pid: nat, after: seq<Op>)
    ensures var (s, err) := Step(New(false, pid), Delete(true)); err.NoError? && Run(s, after).waitCloses == 0
  {
    DeletedIsFinal(Step(New(false, pid), Delete(true)).0, after);
  }

  lemma {:induction false} DeletedIsFinal(s: Init, ops: seq<Op>)
    requires s.state.Deleted?
    ensures Run(s, ops) == s
    decreases |ops|
  {
    if ops != [] {
      DeletedIsFinal(Step(s, ops[0]).0, ops[1..]);
    }
  }
}

/** The init process object: each call dispatches on the state object it holds. */
module InitProcess {
  import opened Common
  import opened InitSpec

  class InitProcess {
    var initState: State
    var status: int
    var exited: Option<nat>
    var pid: nat
    var waitCloses: nat

    function View(): Init
      reads this
    {
      Init(initState, status, exited, pid, waitCloses)
    }

    /** New followed by Create, which may hand the process over to the checkpoint state. */
    constructor (checkpoint: bool, pid: nat)
      ensures View() == New(checkpoint, pid)
      ensures initState == (if checkpoint then CreatedCheckpoint else Created) && exited.None? && waitCloses == 0
    {
      initState := if checkpoint then CreatedCheckpoint else Created;
      status, exited, this.pid, waitCloses := 0, None, if checkpoint then 0 else pid, 0;
    }

    method Transition(to: State) returns (err: Err)
      modifies this`initState
      ensures (View(), err) == Goto(old(View()), to)
    {
      var allowed;
      match initState {
        case Created => allowed := to.Running? || to.Stopped? || to.Deleted?;
        case CreatedCheckpoint => allowed := to.Running? || to.Stopped? || to.Deleted?;
        case Running => allowed := to.Stopped? || to.Paused?;
        case Paused => allowed := to.Running? || to.Stopped?;
        case Stopped => allowed := to.Deleted?;
        case Deleted => allowed := false;
      }
      if !allowed {
        return Illegal;
      }
      initState := to;
      return NoError;
    }

    method Start(ok: bool, newPid: nat) returns (err: Err)
      modifies this
      ensures (View(), err) == Step(old(View()), InitSpec.Start(ok, newPid)) && !err.Illegal?
      ensures err.NoError? <==> Phase(old(initState)) == 0 && ok
      ensures err.NotAllowed? <==> Phase(old(initState)) != 0
      ensures initState == if err.NoError? then Running else old(initState)
    {
      match initState
      case Created =>
        if !ok {
          return Foreign;
        }
        err := Transition(Running);
      case CreatedCheckpoint =>
        if !ok {
          return Foreign;
        }
        pid := newPid;
        err := Transition(Running);
      case _ => return NotAllowed;
    }

    method Delete(ok: bool) returns (err: Err)
      modifies this
      ensures (View(), err) == Step(old(View()), InitSpec.Delete(ok)) && !err.Illegal?
      ensures err.NoError? <==> (Phase(old(initState)) == 0 || old(initState).Stopped?) && ok
      ensures (err.NotAllowed? <==> Phase(old(initState)) == 1) && (err.NotFound? <==> old(initState).Deleted?)
      ensures initState == if err.NoError? then State.Deleted else old(initState)
    {
      match initState
      case Running => return NotAllowed;
      case Paused => return NotAllowed;
      case Deleted => return NotFound;
      case _ =>
        if !ok {
          return Foreign;
        }
        err := Transition(State.Deleted);
    }

    method Pause(ok: bool) returns (err: Err)
      modifies this
      ensures (View(), err) == Step(old(View()), InitSpec.Pause(ok)) && !err.Illegal?
      ensures err.NoError? <==> old(initState).Running? && ok
      ensures err.NotAllowed? <==> !old(initState).Running?
      ensures initState == if err.NoError? then Paused else old(initState)
    {
      if !initState.Running? {
        return NotAllowed;
      }
      if !ok {
        return Foreign;
      }
      err := Transition(Paused);
    }

    method Resume(ok: bool) returns (err: Err)
      modifies this
      ensures (View(), err) == Step(old(View()), InitSpec.Resume(ok)) && !err.Illegal?
      ensures err.NoError? <==> old(initState).Paused? && ok
      ensures err.NotAllowed? <==> !old(initState).Paused?
      ensures initState == if err.NoError? then Running else old(initState)
    {
      if !initState.Paused? {
        return NotAllowed;
      }
      if !ok {
        return Foreign;
      }
      err := Transition(Running);
    }

    /** A second close of the wait channel would panic. Whether the resume of a paused process
        succeeds makes no difference to its exit. */
    method SetExited(code: int, now: nat)
      requires Inv(View())
      modifies this
      ensures View() == Step(old(View()), InitSpec.SetExited(code, now)).0 && waitCloses <= 1
      ensures Phase(old(initState)) < 2 ==>
                status == code && exited == Some(now) && initState.Stopped? && waitCloses == 1
      ensures Phase(old(initState)) >= 2 ==> View() == old(View())
    {
      match initState
      case Stopped => return;
      case Deleted => return;
      case _ =>
        exited := Some(now);
        status := code;
        waitCloses := waitCloses + 1;
        var err := Transition(Stopped);
        assert err.NoError?;
    }

    /** What a client is told: a deleted process reads as stopped, one being paused as pausing. */
    method Status(pausing: bool) returns (name: string)
      ensures name == "pausing" <==> pausing
      ensures name == "stopped" <==> !pausing && Phase(initState) >= 2
      ensures name == "created" <==> !pausing && Phase(initState) == 0
      ensures name == "running" <==> !pausing && initState.Running?
      ensures name == "paused" <==> !pausing && initState.Paused?
    {
      if pausing {
        return "pausing";
      }
      match initState
      case Created => return "created";
      case CreatedCheckpoint => return "created";
      case Running => return "running";
      case Paused => return "paused";
      case Stopped => return "stopped";
      case Deleted => return "stopped";
    }
  }
}

/** An exec process (process/exec_state.go, process/exec.go). Unlike init, a start that the runtime
    rejects closes the wait channel and leaves the process created. */
module ExecSpec {
  import opened Common
  import opened InitSpec

  datatype Started = IoFailed | RuntimeFailed | LateFailed | Up(pid: nat)

  datatype ExecOp = Start(r: Started) | Delete | Kill(ok: bool) | SetExited(code: int, now: nat)

  const NEW := Init(Created, 0, None, 0, 0)

  predicate ExecLegal(from: State, to: State) {
    match from
    case Created => to.Running? || to.Stopped? || to.Deleted?
    case Running => to.Stopped?
    case Stopped => to.Deleted?
    case _ => false
  }

  function ExecGoto(s: Init, to: State): (Init, Err) {
    if ExecLegal(s.state, to) then (s.(state := to), NoError) else (s, Illegal)
  }

  function ExecStep(s: Init, op: ExecOp): (Init, Err) {
    match op
    case Start(r) =>
      if !s.state.Created? then (s, NotAllowed)
      else if r.Up? then ExecGoto(s.(pid := r.pid), Running)
      else if r.RuntimeFailed? then (s.(waitCloses := s.waitCloses + 1), Foreign)
      else (s, Foreign)
    case Delete =>
      if s.state.Created? || s.state.Stopped? then ExecGoto(s, Deleted)
      else (s, if s.state.Deleted? then NotFound else NotAllowed)
    case Kill(ok) =>
      if s.state.Deleted? then (s, NotFound)
      else if s.pid == 0 then (s, NotAllowed)
      else if s.exited.Some? then (s, NotFound)
      else Call(ok, s)
    case SetExited(code, now) =>
      if s.state.Created? || s.state.Running? then ExecGoto(SetExitedFields(s, code, now), Stopped)
      else (s, NoError)
  }

  function ExecRun(s: Init, ops: seq<ExecOp>): Init
    decreases |ops|
  {
    if ops == [] then s else ExecRun(ExecStep(s, ops[0]).0, ops[1..])
  }

  /** The reaper reports an exit only to the process whose pid it reaped, and no pid is 0. */
  predicate Reaped(s: Init, op: ExecOp) {
    && (op.SetExited? ==> s.pid != 0)
    && (op.Start? && op.r.Up? ==> op.r.pid != 0)
  }

  predicate ReapedRun(s: Init, ops: seq<ExecOp>)
    decreases |ops|
  {
    ops != [] ==> Reaped(s, ops[0]) && ReapedRun(ExecStep(s, ops[0]).0, ops[1..])
  }

  /** Nobody starts the process again after the runtime rejected it. */
  predicate NotRetried(s: Init, ops: seq<ExecOp>)
    decreases |ops|
  {
    ops != [] ==>
      && (ops[0].Start? && s.state.Created? ==> s.waitCloses == 0)
      && NotRetried(ExecStep(s, ops[0]).0, ops[1..])
  }

  predicate ExecInv(s: Init) {
    && (s.state.Created? ==> s.pid == 0)
    && (s.state.Running? ==> s.pid != 0)
    && (s.state.Stopped? ==> s.exited.Some? && s.waitCloses >= 1)
    && (s.state.Created? || s.state.Running? ==> s.exited.None?)
    && !s.state.Paused? && !s.state.CreatedCheckpoint?
  }

  /** No double close behind, none ahead. */
  predicate Sound(s: Init) {
    s.waitCloses <= 1 && (s.state.Running? ==> s.waitCloses == 0)
  }

  lemma ExecStepKeepsInv(s: Init, op: ExecOp)
    requires ExecInv(s) && Reaped(s, op)
    ensures ExecInv(ExecStep(s, op).0) && !ExecStep(s, op).1.Illegal?
    ensures Later(s, ExecStep(s, op).0.(waitCloses := s.waitCloses))
    ensures Sound(s) && (op.Start? && s.state.Created? ==> s.waitCloses == 0) ==> Sound(ExecStep(s, op).0)
  {
  }

  /** Over every run the reaper allows, phases and exits behave as for init; and if no failed start
      is retried, the wait channel closes at most once and is closed when the process is stopped. */
  lemma {:induction false} ExecLifecycle(s: Init, ops: seq<ExecOp>)
    requires ExecInv(s) && ReapedRun(s, ops)
    ensures var t := ExecRun(s, ops);
            && ExecInv(t)
            && Phase(s.state) <= Phase(t.state)
            && (s.exited.Some? ==> t.exited == s.exited && t.status == s.status)
            && (Sound(s) && NotRetried(s, ops) ==> Sound(t) && (t.state.Stopped? ==> t.waitCloses == 1))
    decreases |ops|
  {
    if ops != [] {
      ExecStepKeepsInv(s, ops[0]);
      ExecLifecycle(ExecStep(s, ops[0]).0, ops[1..]);
    }
  }

  /** The exit that is recorded is the one reported, also for an exec. */
  lemma ExecExitIsRecorded(before: seq<ExecOp>, code: int, now: nat, after: seq<ExecOp>)
    requires ReapedRun(NEW, before) && Phase(ExecRun(NEW, before).state) < 2 && ExecRun(NEW, before).pid != 0
    requires ReapedRun(ExecStep(ExecRun(NEW, before), ExecOp.SetExited(code, now)).0, after)
    ensures var t := ExecRun(ExecStep(ExecRun(NEW, before), ExecOp.SetExited(code, now)).0, after);
            t.status == code && t.exited == Some(now) && Phase(t.state) >= 2
  {
    var s, op := ExecRun(NEW, before), ExecOp.SetExited(code, now);
    ExecLifecycle(NEW, before);
    ExecStepKeepsInv(s, op);
    ExecLifecycle(ExecStep(s, op).0, after);
  }

  /** Which call makes which state. A start that succeeds gives the exec its pid; one that the runtime
      rejects closes the wait channel; any other call that fails changes nothing. */
  lemma ExecCallsMove(s: Init, r: Started, ok: bool)
    ensures var (t, err) := ExecStep(s, ExecOp.Start(r));
            && (err.NoError? <==> s.state.Created? && r.Up?)
            && (err.NoError? ==> t == s.(state := Running, pid := r.pid))
            && (!err.NoError? ==>
                  t == if s.state.Created? && r.RuntimeFailed? then s.(waitCloses := s.waitCloses + 1) else s)
    ensures var (t, err) := ExecStep(s, ExecOp.Delete);
            && (err.NoError? <==> s.state.Created? || s.state.Stopped?)
            && t == (if err.NoError? then s.(state := State.Deleted) else s)
    ensures var (t, err) := ExecStep(s, ExecOp.Kill(ok));
            && t == s
            && (err.NoError? <==> !s.state.Deleted? && s.pid != 0 && s.exited.None? && ok)
  {
  }

  /** Why a call on an exec fails. A kill is refused before the exec has a pid; one that has exited or was
      deleted is not found. */
  lemma ExecCallsRefuse(s: Init, op: ExecOp)
    ensures var err := ExecStep(s, op).1;
            && (err.NotFound? <==>
                  || (s.state.Deleted? && (op.Delete? || op.Kill?))
                  || (op.Kill? && s.pid != 0 && s.exited.Some?))
            && (err.NotAllowed? <==>
                  || (op.Start? && !s.state.Created?)
                  || (op.Delete? && !s.state.Created? && !s.state.Stopped? && !s.state.Deleted?)
                  || (op.Kill? && !s.state.Deleted? && s.pid == 0))
            && (err.Foreign? ==> (op.Start? && !op.r.Up?) || (op.Kill? && !op.ok))
  {
  }

  /** Some run the reaper allows closes the wait channel twice, which panics. */
  ghost predicate CanPanic(s: Init) {
    exists ops: seq<ExecOp> :: ReapedRun(s, ops) && ExecRun(s, ops).waitCloses > 1
  }

  lemma {:induction false} PastStartNeverPanics(s: Init, ops: seq<ExecOp>)
    requires ExecInv(s) && !s.state.Created? && Sound(s) && ReapedRun(s, ops)
    ensures ExecRun(s, ops).waitCloses <= 1
    decreases |ops|
  {
    if ops != [] {
      ExecStepKeepsInv(s, ops[0]);
      PastStartNeverPanics(ExecStep(s, ops[0]).0, ops[1..]);
    }
  }

  /** The runtime rejects a start, and the start after it. */
  lemma RetriedStartPanics(s: Init)
    requires s.state.Created?
    ensures CanPanic(s)
  {
    var fail := ExecOp.Start(RuntimeFailed);
    var t := ExecStep(s, fail).0;
    var u := ExecStep(t, fail).0;
    assert [fail][1..] == [];
    assert ExecRun(u, [fail][1..]) == u && ReapedRun(u, [fail][1..]);
    assert ExecRun(t, [fail]) == u && ReapedRun(t, [fail]);
    assert [fail, fail][1..] == [fail];
    assert ExecRun(s, [fail, fail]) == u && ReapedRun(s, [fail, fail]);
  }

  /** A double close lies ahead exactly as long as the process can still be started, or runs after a
      start that had failed before. */
  lemma PanicsExactly(s: Init)
    requires ExecInv(s) && s.waitCloses <= 1
    ensures CanPanic(s) <==> s.state.Created? || (s.state.Running? && s.waitCloses == 1)
  {
    if s.state.Created? {
      RetriedStartPanics(s);
    } else if s.state.Running? && s.waitCloses == 1 {
      var ops := [ExecOp.SetExited(0, 0)];
      assert ops[1..] == [];
      assert ReapedRun(s, ops) && ExecRun(s, ops).waitCloses > 1;
    } else {
      forall ops: seq<ExecOp> | ReapedRun(s, ops) ensures ExecRun(s, ops).waitCloses <= 1 {
        PastStartNeverPanics(s, ops);
      }
    }
  }
}

module ExecProcess {
  import opened Common
  import opened InitSpec
  import opened ExecSpec

  class ExecProcess {
    var execState: State
    var status: int
    var exited: Option<nat>
    var pid: nat
    var waitCloses: nat

    function View(): Init
      reads this
    {
      Init(execState, status, exited, pid, waitCloses)
    }

    constructor ()
      ensures View() == NEW
    {
      execState, status, exited, pid, waitCloses := Created, 0, None, 0, 0;
    }

    method Transition(to: State) returns (err: Err)
      modifies this`execState
      ensures (View(), err) == ExecGoto(old(View()), to)
    {
      var allowed;
      match execState {
        case Created => allowed := to.Running? || to.Stopped? || to.Deleted?;
        case Running => allowed := to.Stopped?;
        case Stopped => allowed := to.Deleted?;
        case _ => allowed := false;
      }
      if !allowed {
        return Illegal;
      }
      execState := to;
      return NoError;
    }

    method Start(r: Started) returns (err: Err)
      modifies this
      ensures (View(), err) == ExecStep(old(View()), ExecOp.Start(r)) && !err.Illegal?
      ensures err.NoError? <==> old(execState).Created? && r.Up?
      ensures err.NotAllowed? <==> !old(execState).Created?
      ensures err.NoError? ==> execState.Running? && pid == r.pid && waitCloses == old(waitCloses)
      ensures !err.NoError? ==> execState == old(execState) && pid == old(pid)
    {
      if !execState.Created? {
        return NotAllowed;
      }
      match r
      case RuntimeFailed =>
        waitCloses := waitCloses + 1;
        return Foreign;
      case Up(p) =>
        pid := p;
        err := Transition(Running);
      case _ => return Foreign;
    }

    method Delete() returns (err: Err)
      modifies this
      ensures (View(), err) == ExecStep(old(View()), ExecOp.Delete) && !err.Illegal?
      ensures err.NoError? <==> old(execState).Created? || old(execState).Stopped?
      ensures err.NotFound? <==> old(execState).Deleted?
      ensures execState == if err.NoError? then State.Deleted else old(execState)
    {
      match execState
      case Created => err := Transition(State.Deleted);
      case Stopped => err := Transition(State.Deleted);
      case Deleted => return NotFound;
      case _ => return NotAllowed;
    }

    method SetExited(code: int, now: nat)
      modifies this
      ensures View() == ExecStep(old(View()), ExecOp.SetExited(code, now)).0
      ensures old(execState).Created? || old(execState).Running? ==>
                status == code && exited == Some(now) && execState.Stopped? && waitCloses == old(waitCloses) + 1
      ensures old(execState).Stopped? || old(execState).Deleted? ==> View() == old(View())
      ensures old(Sound(View()) && !execState.Created?) ==> waitCloses <= 1
    {
      if execState.Created? || execState.Running? {
        exited := Some(now);
        status := code;
        waitCloses := waitCloses + 1;
        var err := Transition(Stopped);
        assert err.NoError?;
      }
    }
  }
}
