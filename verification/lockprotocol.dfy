/** Any number of shim and containerd processes on one bundle, interleaved at every lock, read, write
    and unlock, dying wherever they stand (common/status.go, bundle/bundle.go, shim/shim.go). */
module LockProtocol {
  import opened Common
  import opened FileLocks
  import opened ShimStatus

  datatype Kind = Shim | Containerd

  /** The next thing a process does; a record is the copy it read under its status lock. */
  datatype Phase =
    // Service.init and Service.writeExitStatus
    | Boot                              // waiting for the status lock
    | BootLocked                        // about to read the record
    | BootRead(copy: Record)            // about to try the running lock
    | BootRefused                       // about to unlock the status file and exit
    | Serving0(copy: Record)            // creating the container, then writing the record
    | Serving1                          // about to unlock the status file
    | Serving                           // the container runs
    | ExitWait(exit: Exit)              // waiting for the status lock
    | ExitLocked(exit: Exit)            // about to read the record
    | ExitRead(exit: Exit, copy: Record)
    | ExitDone                          // about to unlock the status file
    | Quit0                             // init failed: about to unlock the status file
    | Quit1                             // about to unlock the running file
    | Doomed                            // about to exit
    // Bundle.Cleanup
    | Idle
    | CleanWait | CleanLocked
    | CleanRead(copy: Record)           // about to try the running lock
    | CleanFailed                       // reading failed: about to unlock the status file
    | Cleaning
    | Release0(owner: bool) | Release1(owner: bool)
    // Bundle.Disable, Bundle.Exited, Bundle.ShimStatus
    | TaskWait(op: TaskOp) | TaskLocked(op: TaskOp)
    | TaskRead(op: TaskOp, copy: Record)
    | TaskChecked(op: TaskOp, copy: Record, running: bool)
    | TaskDone                          // about to unlock the status file

  datatype Proc = Proc(kind: Kind, flags: Flags, phase: Phase)

  datatype State = State(files: Files, procs: map<Pid, Proc>)

  /** What the environment decides for a step: whether a foreign call fails, which operation an idle
      process begins, which exit a container had. */
  datatype Choice = Ok | Fault | Clean | Task(op: TaskOp) | Finish(exit: Exit)

  datatype Action = Spawn(p: Pid, kind: Kind) | Die(p: Pid) | Go(p: Pid, c: Choice)

  const NEW := State(Files(None, None, Record(0, false, false, None)), map[])

  /** One step of process p on the files. It sees nothing of the other processes. */
  function Act(fs: Files, pr: Proc, p: Pid, c: Choice): (Files, Proc) {
    match pr.phase
    case Boot => if c.Fault? then (fs, pr.(phase := Doomed)) else Acquire(fs, pr, p, BootLocked)
    case BootLocked =>
      (fs, pr.(phase := if c.Fault? || fs.record.disabled then BootRefused else BootRead(fs.record)))
    case BootRead(copy) =>
      if c.Fault? then (fs, pr.(phase := BootRefused))
      else
        var (fs', fl', succ) := TakeRunning(fs, pr.flags, p);
        (fs', pr.(flags := fl', phase := if succ then Serving0(copy) else BootRefused))
    case BootRefused => Release(fs, pr, p, c, Doomed)
    case Serving0(copy) =>
      if c.Fault? then (fs, pr.(phase := Quit0))
      else Rewrite(fs, pr, p, copy.(pid := p, created := true), Serving1)
    case Serving1 => Release(fs, pr, p, c, if c.Fault? then Quit1 else Serving)
    case Serving =>
      if c.Fault? then (fs, pr.(phase := Quit0))
      else if c.Finish? then (fs, pr.(phase := ExitWait(c.exit)))
      else (fs, pr)
    case ExitWait(e) => if c.Fault? then (fs, pr.(phase := Serving)) else Acquire(fs, pr, p, ExitLocked(e))
    case ExitLocked(e) => (fs, pr.(phase := if c.Fault? then ExitDone else ExitRead(e, fs.record)))
    case ExitRead(e, copy) =>
      if c.Fault? then (fs, pr.(phase := ExitDone))
      else Rewrite(fs, pr, p, copy.(exit := Some(e)), ExitDone)
    case ExitDone => Release(fs, pr, p, c, Serving)
    case Quit0 => Release(fs, pr, p, c, Quit1)
    case Quit1 => ReleaseRunning(fs, pr, p, c, Doomed)
    case Doomed => (fs, pr)
    case Idle =>
      if c.Clean? then (fs, pr.(phase := CleanWait))
      else if c.Task? then (fs, pr.(phase := TaskWait(c.op)))
      else (fs, pr)
    case CleanWait => if c.Fault? then (fs, pr.(phase := Idle)) else Acquire(fs, pr, p, CleanLocked)
    case CleanLocked => (fs, pr.(phase := if c.Fault? then CleanFailed else CleanRead(fs.record)))
    case CleanRead(_) =>
      if c.Fault? then (fs, pr.(phase := CleanFailed))
      else
        var (fs', fl', succ) := TakeRunning(fs, pr.flags, p);
        (fs', pr.(flags := fl', phase := if succ then Cleaning else Release0(false)))
    case CleanFailed => Release(fs, pr, p, c, Idle)
    case Cleaning => (fs, pr.(phase := Release0(true)))
    case Release0(owner) => Release(fs, pr, p, c, Release1(owner))
    case Release1(_) => ReleaseRunning(fs, pr, p, c, Idle)
    case TaskWait(op) => if c.Fault? then (fs, pr.(phase := Idle)) else Acquire(fs, pr, p, TaskLocked(op))
    case TaskLocked(op) => (fs, pr.(phase := if c.Fault? then TaskDone else TaskRead(op, fs.record)))
    case TaskRead(op, copy) =>
      if c.Fault? then (fs, pr.(phase := TaskDone))
      else (fs, pr.(phase := TaskChecked(op, copy, ShimRunning(fs, pr.flags, p))))
    case TaskChecked(op, copy, _) =>
      if c.Fault? || !Writes(op, copy) then (fs, pr.(phase := TaskDone))
      else Rewrite(fs, pr, p, Updated(op, copy), TaskDone)
    case TaskDone => Release(fs, pr, p, c, Idle)
  }

  function Acquire(fs: Files, pr: Proc, p: Pid, next: Phase): (Files, Proc) {
    var (fs', fl', ok) := TakeStatus(fs, pr.flags, p);
    (fs', pr.(flags := fl', phase := if ok then next else pr.phase))
  }

  /** UpdateStatus, which makes sure of the status lock before it writes. */
  function Rewrite(fs: Files, pr: Proc, p: Pid, r: Record, next: Phase): (Files, Proc) {
    var (fs', fl', ok) := TakeStatus(fs, pr.flags, p);
    if ok then (fs'.(record := r), pr.(flags := fl', phase := next)) else (fs, pr)
  }

  /** A release that fails drops the flag and keeps the lock; the process goes on as after any other. */
  function Release(fs: Files, pr: Proc, p: Pid, c: Choice, next: Phase): (Files, Proc) {
    var (fs', fl') := DropStatus(fs, pr.flags, p, !c.Fault?);
    (fs', pr.(flags := fl', phase := next))
  }

  function ReleaseRunning(fs: Files, pr: Proc, p: Pid, c: Choice, next: Phase): (Files, Proc) {
    var (fs', fl') := DropRunning(fs, pr.flags, p, !c.Fault?);
    (fs', pr.(flags := fl', phase := next))
  }

  /** The system drops the locks of a process that dies. */
  function Left(fs: Files, p: Pid): Files {
    fs.(status := Unlocked(fs.status, p), running := Unlocked(fs.running, p))
  }

  function Step(s: State, a: Action): State {
    match a
    case Spawn(p, kind) =>
      if p in s.procs then s
      else s.(procs := s.procs[p := Proc(kind, Flags(false, false), if kind.Shim? then Boot else Idle)])
    case Die(p) =>
      if p !in s.procs then s
      else State(Left(s.files, p), s.procs - {p})
    case Go(p, c) =>
      if p !in s.procs then s
      else
        var (fs', pr') := Act(s.files, s.procs[p], p, c);
        State(fs', s.procs[p := pr'])
  }

  function Run(s: State, acts: seq<Action>): State
    decreases |acts|
  {
    if acts == [] then s else Run(Step(s, acts[0]), acts[1..])
  }

  // ---- The invariant: what each process may rely on ----

  /** Between taking and releasing the status lock. */
  predicate InStatus(ph: Phase) {
    || ph.BootLocked? || ph.BootRead? || ph.BootRefused? || ph.Serving0? || ph.Serving1?
    || ph.ExitLocked? || ph.ExitRead? || ph.ExitDone?
    || ph.CleanLocked? || ph.CleanRead? || ph.CleanFailed? || ph.Cleaning? || ph.Release0?
    || ph.TaskLocked? || ph.TaskRead? || ph.TaskChecked? || ph.TaskDone?
  }

  /** Serving a container, or running the cleanup of its bundle. */
  predicate InCharge(ph: Phase) {
    || ph.Serving0? || ph.Serving1? || ph.Serving?
    || ph.ExitWait? || ph.ExitLocked? || ph.ExitRead? || ph.ExitDone?
    || ph.Cleaning?
  }

  /** In charge, or still on the way to giving the running lock back. */
  predicate Owner(ph: Phase) {
    InCharge(ph) || ph.Quit0? || ph.Quit1? || (ph.Release0? && ph.owner) || (ph.Release1? && ph.owner)
  }

  /** The running flag outlives a failed attempt only where the process is about to drop it or die. */
  predicate MayBeStale(ph: Phase) {
    ph.BootRefused? || ph.Doomed? || (ph.Release0? && !ph.owner) || (ph.Release1? && !ph.owner)
  }

  predicate ShimPhase(ph: Phase) {
    || ph.Boot? || ph.BootLocked? || ph.BootRead? || ph.BootRefused?
    || ph.Serving0? || ph.Serving1? || ph.Serving?
    || ph.ExitWait? || ph.ExitLocked? || ph.ExitRead? || ph.ExitDone?
    || ph.Quit0? || ph.Quit1? || ph.Doomed?
  }

  function Copy(ph: Phase): Option<Record> {
    if ph.BootRead? || ph.Serving0? || ph.ExitRead? || ph.CleanRead? || ph.TaskRead? || ph.TaskChecked?
    then Some(ph.copy) else None
  }

  /** A process may own a lock it does not know of, because giving it back failed. */
  predicate Local(fs: Files, pr: Proc, p: Pid) {
    var ph := pr.phase;
    && (ShimPhase(ph) <==> pr.kind.Shim?)
    && (InStatus(ph) || ph == Quit0 || !pr.flags.status)
    && (InStatus(ph) ==> pr.flags.status)
    && (pr.flags.status ==> fs.status == Some(p))
    && (Owner(ph) ==> pr.flags.running && fs.running == Some(p))
    && (pr.flags.running ==> Owner(ph) || MayBeStale(ph))
    && (Copy(ph).Some? ==> Copy(ph).value == fs.record)
    && (ph.BootRead? || ph.Serving0? ==> !ph.copy.disabled)
  }

  /** No shim is, or may soon be, the running one. */
  predicate NoShim(s: State) {
    s.files.running.Some? ==> s.files.running.value in s.procs && s.procs[s.files.running.value].kind.Containerd?
  }

  ghost predicate Inv(s: State) {
    && (forall p :: p in s.procs ==> Local(s.files, s.procs[p], p))
    && (s.files.status.Some? ==> s.files.status.value in s.procs)
    && (s.files.running.Some? ==> s.files.running.value in s.procs)
    && (forall p :: p in s.procs && s.procs[p].phase.TaskChecked? && !s.procs[p].phase.running ==> NoShim(s))
  }

  /** What a step of p guarantees to every other process. */
  predicate Guarantee(fs: Files, fs': Files, pr: Proc, p: Pid) {
    && (fs'.status == fs.status || (CanTake(fs.status, p) && CanTake(fs'.status, p)))
    && (fs'.running == fs.running || (CanTake(fs.running, p) && CanTake(fs'.running, p)))
    && (fs'.record != fs.record ==> fs.status == fs'.status == Some(p))
    && Forward(fs.record, fs'.record)
    && (pr.kind.Shim? && fs'.running == Some(p) != fs.running ==> fs.status == Some(p) && !fs.record.disabled)
  }

  lemma BootIsLocal(fs: Files, pr: Proc, p: Pid, c: Choice)
    requires Local(fs, pr, p) && (pr.phase.Boot? || pr.phase.BootLocked? || pr.phase.BootRead? || pr.phase.BootRefused?)
    ensures var (fs', pr') := Act(fs, pr, p, c); Local(fs', pr', p) && pr'.kind == pr.kind
  {
  }

  lemma ServingIsLocal(fs: Files, pr: Proc, p: Pid, c: Choice)
    requires Local(fs, pr, p)
    requires pr.phase.Serving0? || pr.phase.Serving1? || pr.phase.Serving?
          || pr.phase.Quit0? || pr.phase.Quit1? || pr.phase.Doomed?
    ensures var (fs', pr') := Act(fs, pr, p, c); Local(fs', pr', p) && pr'.kind == pr.kind
  {
  }

  lemma ExitIsLocal(fs: Files, pr: Proc, p: Pid, c: Choice)
    requires Local(fs, pr, p)
    requires pr.phase.ExitWait? || pr.phase.ExitLocked? || pr.phase.ExitRead? || pr.phase.ExitDone?
    ensures var (fs', pr') := Act(fs, pr, p, c); Local(fs', pr', p) && pr'.kind == pr.kind
  {
  }

  lemma ShimActIsLocal(fs: Files, pr: Proc, p: Pid, c: Choice)
    requires Local(fs, pr, p) && pr.kind.Shim?
    ensures var (fs', pr') := Act(fs, pr, p, c); Local(fs', pr', p) && pr'.kind == pr.kind
  {
    var ph := pr.phase;
    if ph.Boot? || ph.BootLocked? || ph.BootRead? || ph.BootRefused? {
      BootIsLocal(fs, pr, p, c);
    } else if ph.ExitWait? || ph.ExitLocked? || ph.ExitRead? || ph.ExitDone? {
      ExitIsLocal(fs, pr, p, c);
    } else {
      ServingIsLocal(fs, pr, p, c);
    }
  }

  lemma CleanupIsLocal(fs: Files, pr: Proc, p: Pid, c: Choice)
    requires Local(fs, pr, p) && pr.kind.Containerd?
    requires pr.phase.CleanWait? || pr.phase.CleanLocked? || pr.phase.CleanRead? || pr.phase.CleanFailed?
          || pr.phase.Cleaning? || pr.phase.Release0? || pr.phase.Release1?
    ensures var (fs', pr') := Act(fs, pr, p, c); Local(fs', pr', p) && pr'.kind == pr.kind
  {
  }

  lemma TaskIsLocal(fs: Files, pr: Proc, p: Pid, c: Choice)
    requires Local(fs, pr, p) && pr.kind.Containerd?
    requires pr.phase.Idle? || pr.phase.TaskWait? || pr.phase.TaskLocked? || pr.phase.TaskRead?
          || pr.phase.TaskChecked? || pr.phase.TaskDone?
    ensures var (fs', pr') := Act(fs, pr, p, c); Local(fs', pr', p) && pr'.kind == pr.kind
  {
  }

  lemma BundleActIsLocal(fs: Files, pr: Proc, p: Pid, c: Choice)
    requires Local(fs, pr, p) && pr.kind.Containerd?
    ensures var (fs', pr') := Act(fs, pr, p, c); Local(fs', pr', p) && pr'.kind == pr.kind
  {
    var ph := pr.phase;
    if ph.Idle? || ph.TaskWait? || ph.TaskLocked? || ph.TaskRead? || ph.TaskChecked? || ph.TaskDone? {
      TaskIsLocal(fs, pr, p, c);
    } else {
      CleanupIsLocal(fs, pr, p, c);
    }
  }

  lemma ActIsLocal(fs: Files, pr: Proc, p: Pid, c: Choice)
    requires Local(fs, pr, p)
    ensures var (fs', pr') := Act(fs, pr, p, c); Local(fs', pr', p) && pr'.kind == pr.kind
  {
    if pr.kind.Shim? {
      ShimActIsLocal(fs, pr, p, c);
    } else {
      BundleActIsLocal(fs, pr, p, c);
    }
  }

  lemma ActGuarantees(fs: Files, pr: Proc, p: Pid, c: Choice)
    requires Local(fs, pr, p)
    ensures Guarantee(fs, Act(fs, pr, p, c).0, pr, p)
  {
  }

  lemma GuaranteeIsEnough(fs: Files, fs': Files, pr: Proc, p: Pid, other: Proc, q: Pid)
    requires Local(fs, other, q) && Guarantee(fs, fs', pr, p) && p != q
    ensures Local(fs', other, q)
  {
  }

  /** A step keeps every process's share of the invariant and moves the record only forward. */
  lemma StepKeepsLocal(s: State, a: Action)
    requires Inv(s)
    ensures var t := Step(s, a);
            && (forall q :: q in t.procs ==> Local(t.files, t.procs[q], q))
            && Forward(s.files.record, t.files.record)
  {
    var t := Step(s, a);
    if a.Go? && a.p in s.procs {
      var pr := s.procs[a.p];
      ActGuarantees(s.files, pr, a.p, a.c);
      forall q | q in t.procs ensures Local(t.files, t.procs[q], q) {
        if q != a.p {
          GuaranteeIsEnough(s.files, t.files, pr, a.p, s.procs[q], q);
        } else {
          ActIsLocal(s.files, pr, a.p, a.c);
        }
      }
    }
  }

  /** A shim gets the running lock only from a state whose status lock it holds and whose record is
      not disabled. */
  lemma NewShimOwner(s: State, a: Action)
    requires Inv(s) && NoShim(s) && !NoShim(Step(s, a))
    ensures a.Go? && a.p in s.procs && s.files.status == Some(a.p)
            && s.procs[a.p].kind.Shim? && !s.files.record.disabled
  {
    if a.Go? && a.p in s.procs {
      var pr := s.procs[a.p];
      ActGuarantees(s.files, pr, a.p, a.c);
      ActIsLocal(s.files, pr, a.p, a.c);
    }
  }

  lemma StepKeepsHolders(s: State, a: Action)
    requires Inv(s)
    ensures var t := Step(s, a);
            && (t.files.status.Some? ==> t.files.status.value in t.procs)
            && (t.files.running.Some? ==> t.files.running.value in t.procs)
  {
    if a.Go? && a.p in s.procs {
      ActGuarantees(s.files, s.procs[a.p], a.p, a.c);
    }
  }

  /** A process that found no shim running still finds none. */
  lemma StepKeepsChecked(s: State, a: Action, q: Pid)
    requires Inv(s) && q in Step(s, a).procs
    requires Step(s, a).procs[q].phase.TaskChecked? && !Step(s, a).procs[q].phase.running
    ensures NoShim(Step(s, a))
  {
    var t := Step(s, a);
    if q in s.procs && s.procs[q] == t.procs[q] {
      if !NoShim(t) {
        NewShimOwner(s, a);
      }
    }
  }

  lemma StepKeepsInv(s: State, a: Action)
    requires Inv(s)
    ensures Inv(Step(s, a))
  {
    var t := Step(s, a);
    StepKeepsLocal(s, a);
    StepKeepsHolders(s, a);
    forall q | q in t.procs && t.procs[q].phase.TaskChecked? && !t.procs[q].phase.running ensures NoShim(t) {
      StepKeepsChecked(s, a, q);
    }
  }

  lemma {:induction false} RunKeepsInv(s: State, acts: seq<Action>)
    requires Inv(s)
    ensures Inv(Run(s, acts))
    ensures Forward(s.files.record, Run(s, acts).files.record)
    decreases |acts|
  {
    if acts != [] {
      StepKeepsInv(s, acts[0]);
      StepKeepsLocal(s, acts[0]);
      RunKeepsInv(Step(s, acts[0]), acts[1..]);
    }
  }

  lemma {:induction false} RunConcat(s: State, a: seq<Action>, b: seq<Action>)
    ensures Run(s, a + b) == Run(Run(s, a), b)
    decreases |a|
  {
    if a == [] {
      assert a + b == b;
    } else {
      assert (a + b)[1..] == a[1..] + b;
      RunConcat(Step(s, a[0]), a[1..], b);
    }
  }

  // ---- Main results, over every interleaving with crashes ----

  /** At most one process serves the container or cleans its bundle, and it owns the running lock. */
  lemma MutualExclusion(acts: seq<Action>, p: Pid, q: Pid)
    requires var s := Run(NEW, acts);
             p in s.procs && q in s.procs && InCharge(s.procs[p].phase) && InCharge(s.procs[q].phase)
    ensures p == q && Run(NEW, acts).files.running == Some(p)
  {
    RunKeepsInv(NEW, acts);
  }

  /** Created and Disabled never go back to false, nor Exit to nil, between any two points of a run. */
  lemma RecordMovesForward(before: seq<Action>, after: seq<Action>)
    ensures Forward(Run(NEW, before).files.record, Run(NEW, before + after).files.record)
  {
    RunKeepsInv(NEW, before);
    RunKeepsInv(Run(NEW, before), after);
    RunConcat(NEW, before, after);
  }

  /** What a write leaves, had it read and written the record in one go. */
  function Atomically(r: Record, ph: Phase, p: Pid): Record {
    match ph
    case Serving0(_) => r.(pid := p, created := true)
    case ExitRead(e, _) => r.(exit := Some(e))
    case TaskChecked(op, _, _) => Updated(op, r)
    case _ => r
  }

  lemma ActUpdatesAtomically(fs: Files, pr: Proc, p: Pid, c: Choice)
    requires Local(fs, pr, p)
    ensures var r := Act(fs, pr, p, c).0.record;
            && (r == fs.record || r == Atomically(fs.record, pr.phase, p))
            && (!c.Fault? ==> r == Atomically(fs.record, pr.phase, p))
  {
  }

  /** No update is lost: every write, however long ago its record was read, changes the record as if
      it had just been read, no write that does not fail is left out, and steps that do not write leave the
      record alone. */
  lemma UpdatesAreAtomic(acts: seq<Action>, a: Action)
    ensures var s := Run(NEW, acts);
            var r := Step(s, a).files.record;
            if a.Go? && a.p in s.procs
            then r == Atomically(s.files.record, s.procs[a.p].phase, a.p) || (a.c.Fault? && r == s.files.record)
            else r == s.files.record
  {
    RunKeepsInv(NEW, acts);
    var s := Run(NEW, acts);
    if a.Go? && a.p in s.procs {
      ActUpdatesAtomically(s.files, s.procs[a.p], a.p, a.c);
    }
  }

  /** And no update is left out: every process that gets to its write and is not kept from writing makes
      exactly its change to the record as it is then, whoever wrote since. */
  lemma WritesLand(acts: seq<Action>, p: Pid)
    requires p in Run(NEW, acts).procs
    ensures var s := Run(NEW, acts);
            var ph, r, r' := s.procs[p].phase, s.files.record, Step(s, Go(p, Ok)).files.record;
            && (ph.ExitRead? ==> r' == r.(exit := Some(ph.exit)))
            && (ph.Serving0? ==> r' == r.(pid := p, created := true))
            && (ph.TaskChecked? && ph.op.Disable? ==> r' == r.(disabled := true))
            && (ph.TaskChecked? && ph.op.ReadStatus? ==>
                  r' == if r.disabled && r.exit.None? then r.(exit := Some(Exit(r.pid, 0))) else r)
            && (ph.TaskChecked? && ph.op.Exited? ==> r' == r)
  {
    RunKeepsInv(NEW, acts);
    var s := Run(NEW, acts);
    assert Local(s.files, s.procs[p], p);
  }

  /** Disabled with no shim running is forever. */
  lemma {:induction false} DisabledIsForever(s: State, acts: seq<Action>)
    requires Inv(s) && s.files.record.disabled && NoShim(s)
    ensures var t := Run(s, acts); t.files.record.disabled && NoShim(t)
    decreases |acts|
  {
    if acts != [] {
      StepKeepsInv(s, acts[0]);
      StepKeepsLocal(s, acts[0]);
      if !NoShim(Step(s, acts[0])) {
        NewShimOwner(s, acts[0]);
      }
      DisabledIsForever(Step(s, acts[0]), acts[1..]);
    }
  }

  /** A process that read the record as disabled and then found no shim running can report the task
      stopped for good: in every continuation no shim is in charge. */
  lemma StoppedReportIsFinal(before: seq<Action>, p: Pid, after: seq<Action>, q: Pid)
    requires var s := Run(NEW, before);
             p in s.procs && s.procs[p].phase.TaskChecked?
             && !s.procs[p].phase.running && s.procs[p].phase.copy.disabled
    requires var t := Run(NEW, before + after); q in t.procs && t.procs[q].kind.Shim?
    ensures !InCharge(Run(NEW, before + after).procs[q].phase)
  {
    RunKeepsInv(NEW, before);
    var s := Run(NEW, before);
    DisabledIsForever(s, after);
    RunKeepsInv(s, after);
    RunConcat(NEW, before, after);
    var t := Run(s, after);
    assert Local(t.files, t.procs[q], q);
  }

  /** The same for the process that disables the bundle itself, from its write on. */
  lemma KillReportIsFinal(before: seq<Action>, p: Pid, after: seq<Action>, q: Pid)
    requires var s := Run(NEW, before);
             p in s.procs && s.procs[p].phase.TaskChecked? && !s.procs[p].phase.running && s.procs[p].phase.op.Disable?
    requires var t := Run(NEW, before + [Go(p, Ok)] + after); q in t.procs && t.procs[q].kind.Shim?
    ensures !InCharge(Run(NEW, before + [Go(p, Ok)] + after).procs[q].phase)
  {
    RunKeepsInv(NEW, before);
    var s := Run(NEW, before);
    assert NoShim(s);
    var u := Step(s, Go(p, Ok));
    assert u.files.record.disabled && NoShim(u);
    StepKeepsInv(s, Go(p, Ok));
    DisabledIsForever(u, after);
    RunKeepsInv(u, after);
    RunConcat(NEW, before + [Go(p, Ok)], after);
    RunConcat(NEW, before, [Go(p, Ok)]);
    assert Run(s, [Go(p, Ok)]) == u;
    var t := Run(u, after);
    assert Local(t.files, t.procs[q], q);
  }

  // ---- Giving the status lock back ----

  /** The own steps a process in its critical section needs at most to try to give the status lock back. */
  function Hold(ph: Phase): nat {
    match ph
    case BootLocked => 5
    case BootRead(_) => 4
    case Serving0(_) => 3
    case CleanLocked => 4
    case CleanRead(_) => 3
    case Cleaning => 2
    case ExitLocked(_) => 3
    case ExitRead(_, _) => 2
    case TaskLocked(_) => 4
    case TaskRead(_, _) => 3
    case TaskChecked(_, _, _) => 2
    case BootRefused => 1
    case Serving1 => 1
    case ExitDone => 1
    case Quit0 => 1
    case CleanFailed => 1
    case Release0(_) => 1
    case TaskDone => 1
    case _ => 0
  }

  lemma ActMovesOn(fs: Files, pr: Proc, p: Pid, c: Choice)
    requires Local(fs, pr, p) && pr.flags.status
    ensures var (fs', pr') := Act(fs, pr, p, c);
            && 0 < Hold(pr.phase) <= 5
            && (Hold(pr.phase) > 1 ==> pr'.flags.status && Hold(pr'.phase) < Hold(pr.phase))
            && (Hold(pr.phase) == 1 ==> !pr'.flags.status && fs'.status == if c.Fault? then Some(p) else None)
  {
  }

  /** How often p moves. */
  function Moves(acts: seq<Action>, p: Pid): nat {
    if acts == [] then 0 else (if acts[0].Go? && acts[0].p == p then 1 else 0) + Moves(acts[1..], p)
  }

  predicate Survives(acts: seq<Action>, p: Pid) {
    forall a :: a in acts ==> a != Die(p)
  }

  /** Others leave the owner of the status lock where it is. */
  lemma OthersWait(s: State, a: Action, p: Pid)
    requires Inv(s) && s.files.status == Some(p) && p in s.procs && a != Die(p) && !(a.Go? && a.p == p)
    ensures var t := Step(s, a); p in t.procs && t.procs[p] == s.procs[p] && t.files.status == Some(p)
  {
    if a.Go? && a.p in s.procs {
      ActGuarantees(s.files, s.procs[a.p], a.p, a.c);
    }
  }

  /** The k-th action is the one by which p gives the lock back, and it fails. */
  predicate UnlockFails(s: State, acts: seq<Action>, k: nat, p: Pid) {
    k < |acts| && acts[k] == Go(p, Fault) &&
    var t := Run(s, acts[..k]); p in t.procs && t.procs[p].flags.status && Hold(t.procs[p].phase) == 1
  }

  lemma {:induction false} HolderRuns(s: State, acts: seq<Action>, p: Pid) returns (k: nat)
    requires Inv(s) && p in s.procs && s.procs[p].flags.status && Survives(acts, p)
    requires Hold(s.procs[p].phase) <= Moves(acts, p)
    ensures k <= |acts| && (Run(s, acts[..k]).files.status != Some(p) || UnlockFails(s, acts, k, p))
    decreases |acts|
  {
    if acts == [] {
      ActMovesOn(s.files, s.procs[p], p, Ok);
      assert false;
    } else if acts[0].Go? && acts[0].p == p && Hold(s.procs[p].phase) == 1 {
      ActMovesOn(s.files, s.procs[p], p, acts[0].c);
      if acts[0].c.Fault? {
        k := 0;
      } else {
        k := 1;
        assert acts[..1] == [acts[0]] && [acts[0]][1..] == [];
        assert Run(Step(s, acts[0]), [acts[0]][1..]) == Step(s, acts[0]);
      }
    } else {
      k := HolderRunsOn(s, acts, p);
    }
  }

  lemma {:induction false} HolderRunsOn(s: State, acts: seq<Action>, p: Pid) returns (k: nat)
    requires Inv(s) && p in s.procs && s.procs[p].flags.status && Survives(acts, p)
    requires Hold(s.procs[p].phase) <= Moves(acts, p)
    requires acts != [] && !(acts[0].Go? && acts[0].p == p && Hold(s.procs[p].phase) == 1)
    ensures k <= |acts| && (Run(s, acts[..k]).files.status != Some(p) || UnlockFails(s, acts, k, p))
    decreases |acts|, 0
  {
    assert acts[0] in acts && forall a :: a in acts[1..] ==> a in acts;
    StepKeepsInv(s, acts[0]);
    if acts[0].Go? && acts[0].p == p {
      ActMovesOn(s.files, s.procs[p], p, acts[0].c);
    } else {
      OthersWait(s, acts[0], p);
    }
    var rest := HolderRuns(Step(s, acts[0]), acts[1..], p);
    k := rest + 1;
    assert acts[..k][0] == acts[0] && acts[..k][1..] == acts[1..][..rest];
  }

  /** No waiter is held up for good by a process in its critical section that lives and moves: in every
      continuation in which it takes five steps it gives the status lock back, whatever the others and the
      environment do, unless the call that gives it back fails. */
  lemma HolderMovesOn(before: seq<Action>, p: Pid, after: seq<Action>)
    requires var s := Run(NEW, before); p in s.procs && s.procs[p].flags.status
    requires Survives(after, p) && Moves(after, p) >= 5
    ensures var s := Run(NEW, before);
            exists k :: 0 <= k <= |after|
                        && (Run(s, after[..k]).files.status != Some(p) || UnlockFails(s, after, k, p))
  {
    RunKeepsInv(NEW, before);
    var s := Run(NEW, before);
    ActMovesOn(s.files, s.procs[p], p, Ok);
    var k := HolderRuns(s, after, p);
  }

  /** A process that has the status lock without knowing, and will never ask for it again. */
  predicate Forgotten(pr: Proc) {
    !pr.flags.status && (pr.phase.Quit0? || pr.phase.Quit1? || pr.phase.Doomed?)
  }

  lemma {:induction false} ForgottenStays(s: State, acts: seq<Action>, p: Pid)
    requires Inv(s) && p in s.procs && s.files.status == Some(p) && Forgotten(s.procs[p]) && Survives(acts, p)
    ensures Run(s, acts).files.status == Some(p)
    decreases |acts|
  {
    if acts != [] {
      assert acts[0] in acts && forall a :: a in acts[1..] ==> a in acts;
      StepKeepsInv(s, acts[0]);
      if !(acts[0].Go? && acts[0].p == p) {
        OthersWait(s, acts[0], p);
      }
      ForgottenStays(Step(s, acts[0]), acts[1..], p);
    }
  }

  /** What leads an owner of the status lock to giving it back, and in how many steps at most. */
  function Onward(ph: Phase): Choice {
    if ph.Serving? then Finish(Exit(0, 0)) else if ph.Idle? then Task(Exited) else Ok
  }

  function Distance(pr: Proc): nat {
    if pr.flags.status then Hold(pr.phase)
    else
      match pr.phase
      case Boot => 6
      case Serving => 6
      case ExitWait(_) => 5
      case Release1(_) => 7
      case Idle => 6
      case _ => 5
  }

  lemma OnwardLeads(fs: Files, pr: Proc, p: Pid)
    requires Local(fs, pr, p) && fs.status == Some(p) && !Forgotten(pr)
    ensures var (fs', pr') := Act(fs, pr, p, Onward(pr.phase));
            fs'.status == None
            || (fs'.status == Some(p) && !Forgotten(pr') && Distance(pr') < Distance(pr))
  {
  }

  lemma {:induction false} GivesBack(s: State, p: Pid) returns (acts: seq<Action>)
    requires Inv(s) && p in s.procs && s.files.status == Some(p) && !Forgotten(s.procs[p])
    ensures Survives(acts, p) && Run(s, acts).files.status == None
    decreases Distance(s.procs[p])
  {
    var a := Go(p, Onward(s.procs[p].phase));
    OnwardLeads(s.files, s.procs[p], p);
    StepKeepsInv(s, a);
    if Step(s, a).files.status == None {
      acts := [a];
      assert acts[1..] == [] && Run(Step(s, a), acts[1..]) == Step(s, a);
    } else {
      var more := GivesBack(Step(s, a), p);
      acts := [a] + more;
      assert acts[1..] == more;
    }
  }

  /** The status lock is out of everybody's reach until its owner dies, exactly if the owner is a shim on its
      way out that failed to give it back. */
  lemma LockIsLostExactly(before: seq<Action>, p: Pid)
    requires Run(NEW, before).files.status == Some(p)
    ensures var s := Run(NEW, before);
            && p in s.procs
            && ((forall after :: Survives(after, p) ==> Run(s, after).files.status == Some(p))
                <==> Forgotten(s.procs[p]))
  {
    RunKeepsInv(NEW, before);
    var s := Run(NEW, before);
    if Forgotten(s.procs[p]) {
      forall after | Survives(after, p) ensures Run(s, after).files.status == Some(p) {
        ForgottenStays(s, after, p);
      }
    } else {
      var acts := GivesBack(s, p);
    }
  }

  lemma RunFour(s: State, a: Action, b: Action, c: Action, d: Action)
    ensures Run(s, [a, b, c, d]) == Step(Step(Step(Step(s, a), b), c), d)
  {
    var t := Step(Step(s, a), b);
    assert [a, b, c, d][1..] == [b, c, d] && [b, c, d][1..] == [c, d] && [c, d][1..] == [d] && [d][1..] == [];
    assert Run(t, [c, d]) == Run(Step(t, c), [d]) == Step(Step(t, c), d);
    assert Run(Step(s, a), [b, c, d]) == Run(t, [c, d]);
  }

  /** It takes a record that cannot be read and a lock that cannot be given back. */
  lemma LockCanBeLost()
    ensures var s := Run(NEW, [Spawn(1, Shim), Go(1, Ok), Go(1, Fault), Go(1, Fault)]);
            s.files.status == Some(1) && 1 in s.procs && Forgotten(s.procs[1])
  {
    RunFour(NEW, Spawn(1, Shim), Go(1, Ok), Go(1, Fault), Go(1, Fault));
    var s := Step(Step(NEW, Spawn(1, Shim)), Go(1, Ok));
    assert s.procs[1].phase == BootLocked && s.files.status == Some(1);
    assert Step(s, Go(1, Fault)).procs[1].phase == BootRefused;
  }

  // ---- An operation that nobody interrupts ----

  lemma Extend(s: State, acts: seq<Action>, a: Action) returns (longer: seq<Action>)
    ensures longer == acts + [a] && Run(s, longer) == Step(Run(s, acts), a)
  {
    longer := acts + [a];
    RunConcat(s, acts, [a]);
    assert [a][1..] == [] && Run(Step(Run(s, acts), a), [a][1..]) == Step(Run(s, acts), a);
  }

  /** The state s, but with other files and with the containerd process p in phase ph. */
  function At(s: State, fs: Files, p: Pid, ph: Phase): State {
    State(fs, s.procs[p := Proc(Containerd, Flags(fs.status == Some(p), false), ph)])
  }

  lemma ExtendAt(s: State, acts: seq<Action>, fs: Files, p: Pid, ph: Phase, c: Choice, fs': Files, ph': Phase)
    returns (longer: seq<Action>)
    requires Run(s, acts) == At(s, fs, p, ph)
    requires Act(fs, At(s, fs, p, ph).procs[p], p, c) == (fs', At(s, fs', p, ph').procs[p])
    ensures Run(s, longer) == At(s, fs', p, ph')
  {
    longer := Extend(s, acts, Go(p, c));
    assert Step(At(s, fs, p, ph), Go(p, c)).procs == At(s, fs', p, ph').procs;
  }

  lemma TaskLocks(s: State, p: Pid, op: TaskOp) returns (acts: seq<Action>)
    requires s == At(s, s.files, p, Idle) && s.files.status == None
    ensures Run(s, acts) == At(s, s.files.(status := Some(p)), p, TaskLocked(op))
  {
    acts := ExtendAt(s, [], s.files, p, Idle, Task(op), s.files, TaskWait(op));
    acts := ExtendAt(s, acts, s.files, p, TaskWait(op), Ok, s.files.(status := Some(p)), TaskLocked(op));
  }

  /** A process at rest takes the free status lock and looks at the record and the running lock. */
  lemma TaskChecks(s: State, p: Pid, op: TaskOp) returns (acts: seq<Action>)
    requires s == At(s, s.files, p, Idle) && s.files.status == None
    ensures var fs := s.files.(status := Some(p));
            Run(s, acts) == At(s, fs, p, TaskChecked(op, fs.record, !CanTake(fs.running, p)))
  {
    var fs := s.files.(status := Some(p));
    acts := TaskLocks(s, p, op);
    acts := ExtendAt(s, acts, fs, p, TaskLocked(op), Ok, fs, TaskRead(op, fs.record));
    acts := ExtendAt(s, acts, fs, p, TaskRead(op, fs.record), Ok,
                     fs, TaskChecked(op, fs.record, !CanTake(fs.running, p)));
  }

  /** Process p takes steps until it is at rest or the choices run out. */
  function Solo(s: State, p: Pid, cs: seq<Choice>): State
    decreases |cs|
  {
    if cs == [] || p !in s.procs || s.procs[p].phase.Idle? then s
    else Solo(Step(s, Go(p, cs[0])), p, cs[1..])
  }

  lemma {:induction false} SoloIsRun(s: State, p: Pid, cs: seq<Choice>) returns (acts: seq<Action>)
    ensures Run(s, acts) == Solo(s, p, cs) && forall a :: a in acts ==> a.Go? && a.p == p
    decreases |cs|
  {
    if cs == [] || p !in s.procs || s.procs[p].phase.Idle? {
      acts := [];
    } else {
      var more := SoloIsRun(Step(s, Go(p, cs[0])), p, cs[1..]);
      acts := [Go(p, cs[0])] + more;
      assert acts[1..] == more;
    }
  }

  /** No call fails. */
  predicate Faultless(cs: seq<Choice>) {
    forall i :: 0 <= i < |cs| ==> !cs[i].Fault?
  }

  /** p has come to rest with the record as it was or updated by op, and changed nothing else, except that
      it has the status lock if giving it back failed. */
  predicate Rests(s: State, t: State, p: Pid, op: TaskOp) {
    && t.procs == s.procs
    && t.files.running == s.files.running
    && (t.files.record == s.files.record || t.files.record == Updated(op, s.files.record))
    && (t.files.status == None || t.files.status == Some(p))
  }

  /** From a point k steps before its end an operation gets there, whatever fails; if nothing does, it
      leaves the record u and the lock free. */
  predicate Ends(s: State, u: Record, p: Pid, op: TaskOp, t: State, k: nat, cs: seq<Choice>) {
    && p in t.procs
    && (t.procs[p].phase.Idle? ==> Rests(s, t, p, op))
    && (|cs| >= k ==> t.procs[p].phase.Idle?)
    && (|cs| >= k && Faultless(cs) ==> t == s.(files := s.files.(record := u)))
  }

  predicate AtRest(s: State, p: Pid) {
    s == At(s, s.files, p, Idle) && s.files.status == None
  }

  lemma StepAt(s: State, fs: Files, p: Pid, ph: Phase, c: Choice, fs': Files, ph': Phase)
    requires Act(fs, At(s, fs, p, ph).procs[p], p, c) == (fs', Proc(Containerd, Flags(InStatus(ph'), false), ph'))
    ensures var t := Step(At(s, fs, p, ph), Go(p, c));
            t == State(fs', s.procs[p := Proc(Containerd, Flags(InStatus(ph'), false), ph')])
  {
    assert At(s, fs, p, ph).procs[p := Proc(Containerd, Flags(InStatus(ph'), false), ph')]
        == s.procs[p := Proc(Containerd, Flags(InStatus(ph'), false), ph')];
  }

  lemma EndsFromDone(s: State, u: Record, p: Pid, op: TaskOp, cs: seq<Choice>)
    requires AtRest(s, p) && (u == s.files.record || u == Updated(op, s.files.record))
    ensures var fs := s.files.(status := Some(p), record := u);
            Ends(s, u, p, op, Solo(At(s, fs, p, TaskDone), p, cs), 1, cs)
  {
    var fs := s.files.(status := Some(p), record := u);
    if cs != [] {
      StepAt(s, fs, p, TaskDone, cs[0], if cs[0].Fault? then fs else fs.(status := None), Idle);
      assert s.procs[p := s.procs[p]] == s.procs;
    }
  }

  lemma EndsFromChecked(s: State, p: Pid, op: TaskOp, running: bool, cs: seq<Choice>)
    requires AtRest(s, p)
    ensures var fs := s.files.(status := Some(p));
            var t := Solo(At(s, fs, p, TaskChecked(op, fs.record, running)), p, cs);
            Ends(s, Updated(op, fs.record), p, op, t, 2, cs)
  {
    var fs, r := s.files.(status := Some(p)), s.files.record;
    if cs != [] {
      var w := if cs[0].Fault? then r else Updated(op, r);
      StepAt(s, fs, p, TaskChecked(op, r, running), cs[0], fs.(record := w), TaskDone);
      EndsFromDone(s, w, p, op, cs[1..]);
    }
  }

  lemma EndsFromRead(s: State, p: Pid, op: TaskOp, cs: seq<Choice>)
    requires AtRest(s, p)
    ensures var fs := s.files.(status := Some(p));
            Ends(s, Updated(op, fs.record), p, op, Solo(At(s, fs, p, TaskRead(op, fs.record)), p, cs), 3, cs)
  {
    var fs, r := s.files.(status := Some(p)), s.files.record;
    if cs != [] {
      if cs[0].Fault? {
        StepAt(s, fs, p, TaskRead(op, r), cs[0], fs, TaskDone);
        EndsFromDone(s, r, p, op, cs[1..]);
      } else {
        StepAt(s, fs, p, TaskRead(op, r), cs[0], fs, TaskChecked(op, r, !CanTake(fs.running, p)));
        EndsFromChecked(s, p, op, !CanTake(fs.running, p), cs[1..]);
      }
    }
  }

  lemma EndsFromLocked(s: State, p: Pid, op: TaskOp, cs: seq<Choice>)
    requires AtRest(s, p)
    ensures var fs := s.files.(status := Some(p));
            Ends(s, Updated(op, fs.record), p, op, Solo(At(s, fs, p, TaskLocked(op)), p, cs), 4, cs)
  {
    var fs, r := s.files.(status := Some(p)), s.files.record;
    if cs != [] {
      if cs[0].Fault? {
        StepAt(s, fs, p, TaskLocked(op), cs[0], fs, TaskDone);
        EndsFromDone(s, r, p, op, cs[1..]);
      } else {
        StepAt(s, fs, p, TaskLocked(op), cs[0], fs, TaskRead(op, r));
        EndsFromRead(s, p, op, cs[1..]);
      }
    }
  }

  lemma EndsFromWait(s: State, p: Pid, op: TaskOp, cs: seq<Choice>)
    requires AtRest(s, p)
    ensures Ends(s, Updated(op, s.files.record), p, op, Solo(At(s, s.files, p, TaskWait(op)), p, cs), 5, cs)
  {
    if cs != [] {
      if cs[0].Fault? {
        StepAt(s, s.files, p, TaskWait(op), cs[0], s.files, Idle);
        assert s.procs[p := s.procs[p]] == s.procs;
      } else {
        StepAt(s, s.files, p, TaskWait(op), cs[0], s.files.(status := Some(p)), TaskLocked(op));
        EndsFromLocked(s, p, op, cs[1..]);
      }
    }
  }

  /** From any reachable state in which p is at rest and the status lock is free: p begins operation op and
      nobody interrupts it. Whatever fails, it is at rest again within five more steps, with the record as
      it was or as the sequential method of Bundle leaves it and nothing else changed, but for a status lock
      it could not give back. If nothing fails, the record is updated and the lock is free. */
  lemma TaskAlone(before: seq<Action>, p: Pid, op: TaskOp, cs: seq<Choice>)
    requires var s := Run(NEW, before); p in s.procs && s.procs[p].phase.Idle? && s.files.status == None
    ensures var s := Run(NEW, before);
            var t := Solo(Step(s, Go(p, Task(op))), p, cs);
            && p in t.procs
            && (t.procs[p].phase.Idle? ==> Rests(s, t, p, op))
            && (|cs| >= 5 ==> t.procs[p].phase.Idle?)
            && (|cs| >= 5 && Faultless(cs) ==> t == s.(files := s.files.(record := Updated(op, s.files.record))))
  {
    RunKeepsInv(NEW, before);
    var s := Run(NEW, before);
    assert Local(s.files, s.procs[p], p);
    assert s.procs[p := s.procs[p]] == s.procs;
    StepAt(s, s.files, p, Idle, Task(op), s.files, TaskWait(op));
    EndsFromWait(s, p, op, cs);
  }

  // ---- The shim and the cleanup, when nobody interrupts them ----

  /** The process serves, or is at rest, or about to exit. */
  predicate Settled(ph: Phase) {
    ph.Serving? || ph.Idle? || ph.Doomed?
  }

  /** Process p takes steps in which nothing fails until it has settled, but n at most. */
  function Oks(s: State, p: Pid, n: nat): State
    decreases n
  {
    if n == 0 || p !in s.procs || Settled(s.procs[p].phase) then s else Oks(Step(s, Go(p, Ok)), p, n - 1)
  }

  function Put(s: State, fs: Files, p: Pid, pr: Proc): State {
    State(fs, s.procs[p := pr])
  }

  lemma GoAlone(s: State, fs: Files, p: Pid, pr: Proc, c: Choice, fs': Files, pr': Proc)
    requires Act(fs, pr, p, c) == (fs', pr')
    ensures Step(Put(s, fs, p, pr), Go(p, c)) == Put(s, fs', p, pr')
  {
    assert s.procs[p := pr][p := pr'] == s.procs[p := pr'];
  }

  /** One more step in which nothing fails. */
  lemma OkAlone(s: State, fs: Files, p: Pid, pr: Proc, fs': Files, pr': Proc, n: nat)
    requires n > 0 && !Settled(pr.phase) && Act(fs, pr, p, Ok) == (fs', pr')
    ensures Oks(Put(s, fs, p, pr), p, n) == Oks(Put(s, fs', p, pr'), p, n - 1)
  {
    GoAlone(s, fs, p, pr, Ok, fs', pr');
  }

  /** The last one. */
  lemma LastOkAlone(s: State, fs: Files, p: Pid, pr: Proc, fs': Files, pr': Proc, n: nat)
    requires n > 0 && !Settled(pr.phase) && Settled(pr'.phase) && Act(fs, pr, p, Ok) == (fs', pr')
    ensures Oks(Put(s, fs, p, pr), p, n) == Put(s, fs', p, pr')
  {
    GoAlone(s, fs, p, pr, Ok, fs', pr');
  }

  lemma PutItself(s: State, p: Pid, pr: Proc)
    requires p in s.procs && s.procs[p] == pr
    ensures Put(s, s.files, p, pr) == s
  {
    assert s.procs[p := pr] == s.procs;
  }

  function Booting(locked: bool, running: bool, ph: Phase): Proc {
    Proc(Shim, Flags(locked, running), ph)
  }

  lemma ExitFromLocked(s: State, p: Pid, e: Exit, n: nat)
    requires n >= 3
    ensures var fs := s.files.(status := Some(p));
            Oks(Put(s, fs, p, Booting(true, true, ExitLocked(e))), p, n)
            == Put(s, s.files.(status := None, record := s.files.record.(exit := Some(e))),
                   p, Booting(false, true, Serving))
  {
    var fs, r := s.files.(status := Some(p)), s.files.record;
    var gs := fs.(record := r.(exit := Some(e)));
    OkAlone(s, fs, p, Booting(true, true, ExitLocked(e)), fs, Booting(true, true, ExitRead(e, r)), n);
    OkAlone(s, fs, p, Booting(true, true, ExitRead(e, r)), gs, Booting(true, true, ExitDone), n - 1);
    LastOkAlone(s, gs, p, Booting(true, true, ExitDone), gs.(status := None), Booting(false, true, Serving), n - 2);
  }

  lemma ExitFromServing(s: State, p: Pid, e: Exit, n: nat)
    requires n >= 4 && s.files.status == None && p in s.procs && s.procs[p] == Booting(false, true, Serving)
    ensures Oks(Step(s, Go(p, Finish(e))), p, n)
            == s.(files := s.files.(record := s.files.record.(exit := Some(e))))
  {
    var fs := s.files.(status := Some(p));
    PutItself(s, p, Booting(false, true, Serving));
    GoAlone(s, s.files, p, Booting(false, true, Serving), Finish(e), s.files, Booting(false, true, ExitWait(e)));
    OkAlone(s, s.files, p, Booting(false, true, ExitWait(e)), fs, Booting(true, true, ExitLocked(e)), n);
    ExitFromLocked(s, p, e, n - 1);
    assert s.procs[p := s.procs[p]] == s.procs;
  }

  lemma PhaseTellsFlags(before: seq<Action>, p: Pid)
    requires p in Run(NEW, before).procs
    ensures var pr := Run(NEW, before).procs[p];
            && (pr.phase.Serving? ==> pr == Booting(false, true, Serving))
            && (pr.phase.Boot? ==> pr == Booting(false, false, Boot))
            && (pr.phase.Idle? ==> pr == Proc(Containerd, Flags(false, false), Idle))
  {
    RunKeepsInv(NEW, before);
    var s := Run(NEW, before);
    assert Local(s.files, s.procs[p], p);
  }

  /** From any reachable state in which a shim serves and the status lock is free: recording an exit, with
      nobody else and no failure between, is over within four more steps and leaves that exit in the record,
      as the sequential WriteExitStatus is proved to do, and nothing else changed. */
  lemma ExitAlone(before: seq<Action>, p: Pid, e: Exit, n: nat)
    requires var s := Run(NEW, before); p in s.procs && s.procs[p].phase.Serving? && s.files.status == None
    requires n >= 4
    ensures var s := Run(NEW, before);
            Oks(Step(s, Go(p, Finish(e))), p, n)
            == s.(files := s.files.(record := s.files.record.(exit := Some(e))))
  {
    PhaseTellsFlags(before, p);
    ExitFromServing(Run(NEW, before), p, e, n);
  }

  lemma BootFromServing0(s: State, p: Pid, fs: Files, n: nat)
    requires n >= 2 && fs.status == fs.running == Some(p)
    ensures Oks(Put(s, fs, p, Booting(true, true, Serving0(fs.record))), p, n)
            == Put(s, Files(None, Some(p), fs.record.(pid := p, created := true)), p, Booting(false, true, Serving))
  {
    var gs := fs.(record := fs.record.(pid := p, created := true));
    OkAlone(s, fs, p, Booting(true, true, Serving0(fs.record)), gs, Booting(true, true, Serving1), n);
    LastOkAlone(s, gs, p, Booting(true, true, Serving1), gs.(status := None), Booting(false, true, Serving), n - 1);
  }

  lemma BootFromRead(s: State, p: Pid, n: nat)
    requires n >= 3 && !s.files.record.disabled
    ensures var fs, r := s.files.(status := Some(p)), s.files.record;
            Oks(Put(s, fs, p, Booting(true, false, BootRead(r))), p, n)
            == if CanTake(s.files.running, p)
               then Put(s, Files(None, Some(p), r.(pid := p, created := true)), p, Booting(false, true, Serving))
               else Put(s, s.files.(status := None), p, Booting(false, true, Doomed))
  {
    var fs, r := s.files.(status := Some(p)), s.files.record;
    if CanTake(s.files.running, p) {
      var gs := fs.(running := Some(p));
      OkAlone(s, fs, p, Booting(true, false, BootRead(r)), gs, Booting(true, true, Serving0(r)), n);
      BootFromServing0(s, p, gs, n - 1);
    } else {
      OkAlone(s, fs, p, Booting(true, false, BootRead(r)), fs, Booting(true, true, BootRefused), n);
      LastOkAlone(s, fs, p, Booting(true, true, BootRefused), fs.(status := None), Booting(false, true, Doomed), n - 1);
    }
  }

  lemma BootFromDisabled(s: State, p: Pid, n: nat)
    requires n >= 2 && s.files.record.disabled
    ensures Oks(Put(s, s.files.(status := Some(p)), p, Booting(true, false, BootLocked)), p, n)
            == Put(s, s.files.(status := None), p, Booting(false, false, Doomed))
  {
    var fs := s.files.(status := Some(p));
    OkAlone(s, fs, p, Booting(true, false, BootLocked), fs, Booting(true, false, BootRefused), n);
    LastOkAlone(s, fs, p, Booting(true, false, BootRefused), fs.(status := None), Booting(false, false, Doomed), n - 1);
  }

  /** Where a boot that nobody interrupts ends. */
  function Booted(s: State, p: Pid): State {
    if s.files.record.disabled then Put(s, s.files.(status := None), p, Booting(false, false, Doomed))
    else if !CanTake(s.files.running, p) then Put(s, s.files.(status := None), p, Booting(false, true, Doomed))
    else Put(s, Files(None, Some(p), s.files.record.(pid := p, created := true)), p, Booting(false, true, Serving))
  }

  lemma BootFromBoot(s: State, p: Pid, n: nat)
    requires n >= 5 && s.files.status == None && p in s.procs && s.procs[p] == Booting(false, false, Boot)
    ensures Oks(s, p, n) == Booted(s, p)
  {
    var fs := s.files.(status := Some(p));
    PutItself(s, p, Booting(false, false, Boot));
    OkAlone(s, s.files, p, Booting(false, false, Boot), fs, Booting(true, false, BootLocked), n);
    if s.files.record.disabled {
      BootFromDisabled(s, p, n - 1);
    } else {
      OkAlone(s, fs, p, Booting(true, false, BootLocked), fs, Booting(true, false, BootRead(fs.record)), n - 1);
      BootFromRead(s, p, n - 2);
    }
  }

  /** From any reachable state in which a shim boots and the status lock is free: with nobody else and no
      failure between, within five steps it serves with the running lock and its pid in the record, as the
      sequential Init is proved to do, if the bundle is not disabled and nobody else has that lock;
      otherwise it is about to exit and the files are as they were. */
  lemma BootAlone(before: seq<Action>, p: Pid, n: nat)
    requires var s := Run(NEW, before); p in s.procs && s.procs[p].phase.Boot? && s.files.status == None
    requires n >= 5
    ensures var s := Run(NEW, before);
            var t, up := Oks(s, p, n), !s.files.record.disabled && CanTake(s.files.running, p);
            && p in t.procs
            && t.procs[p].phase == (if up then Serving else Doomed)
            && t.files == (if up then Files(None, Some(p), s.files.record.(pid := p, created := true)) else s.files)
  {
    PhaseTellsFlags(before, p);
    BootFromBoot(Run(NEW, before), p, n);
  }

  function CleaningUp(locked: bool, running: bool, ph: Phase): Proc {
    Proc(Containerd, Flags(locked, running), ph)
  }

  /** Giving both locks back takes two steps, and leaves the running lock alone if somebody else has it. */
  lemma ReleaseAlone(s: State, fs: Files, p: Pid, owner: bool, n: nat)
    requires n >= 2 && fs.status == Some(p) && (owner <==> fs.running == Some(p))
    ensures Oks(Put(s, fs, p, CleaningUp(true, true, Release0(owner))), p, n)
            == Put(s, fs.(status := None, running := Unlocked(fs.running, p)), p, CleaningUp(false, false, Idle))
  {
    var gs := fs.(status := None);
    OkAlone(s, fs, p, CleaningUp(true, true, Release0(owner)), gs, CleaningUp(false, true, Release1(owner)), n);
    LastOkAlone(s, gs, p, CleaningUp(false, true, Release1(owner)),
                gs.(running := Unlocked(fs.running, p)), CleaningUp(false, false, Idle), n - 1);
  }

  lemma CleanupFromRead(s: State, p: Pid, n: nat)
    requires n >= 4
    ensures var fs := s.files.(status := Some(p));
            Oks(Put(s, fs, p, CleaningUp(true, false, CleanRead(fs.record))), p, n)
            == Put(s, s.files.(status := None, running := Unlocked(s.files.running, p)),
                   p, CleaningUp(false, false, Idle))
  {
    var fs := s.files.(status := Some(p));
    if CanTake(s.files.running, p) {
      var gs := fs.(running := Some(p));
      OkAlone(s, fs, p, CleaningUp(true, false, CleanRead(fs.record)), gs, CleaningUp(true, true, Cleaning), n);
      OkAlone(s, gs, p, CleaningUp(true, true, Cleaning), gs, CleaningUp(true, true, Release0(true)), n - 1);
      ReleaseAlone(s, gs, p, true, n - 2);
    } else {
      OkAlone(s, fs, p, CleaningUp(true, false, CleanRead(fs.record)), fs, CleaningUp(true, true, Release0(false)), n);
      ReleaseAlone(s, fs, p, false, n - 1);
    }
  }

  lemma CleanupFromRest(s: State, p: Pid, n: nat)
    requires n >= 6 && s.files.status == None && p in s.procs && s.procs[p] == CleaningUp(false, false, Idle)
    ensures Oks(Step(s, Go(p, Clean)), p, n) == s.(files := s.files.(running := Unlocked(s.files.running, p)))
  {
    var fs := s.files.(status := Some(p));
    PutItself(s, p, CleaningUp(false, false, Idle));
    GoAlone(s, s.files, p, CleaningUp(false, false, Idle), Clean, s.files, CleaningUp(false, false, CleanWait));
    OkAlone(s, s.files, p, CleaningUp(false, false, CleanWait), fs, CleaningUp(true, false, CleanLocked), n);
    OkAlone(s, fs, p, CleaningUp(true, false, CleanLocked), fs, CleaningUp(true, false, CleanRead(fs.record)), n - 1);
    CleanupFromRead(s, p, n - 2);
    assert s.procs[p := s.procs[p]] == s.procs;
  }

  /** A cleanup of the bundle, with nobody else and no failure between, is over within six more steps and
      leaves everything as it was, but for a running lock that the process had without knowing. */
  lemma CleanupAlone(before: seq<Action>, p: Pid, n: nat)
    requires var s := Run(NEW, before); p in s.procs && s.procs[p].phase.Idle? && s.files.status == None
    requires n >= 6
    ensures var s := Run(NEW, before);
            var l := s.files.running;
            Oks(Step(s, Go(p, Clean)), p, n) == s.(files := s.files.(running := if l == Some(p) then None else l))
  {
    PhaseTellsFlags(before, p);
    CleanupFromRest(Run(NEW, before), p, n);
  }

  /** The attempt at the running lock: a process that tries it gets it, and serves or cleans, exactly if
      nobody else has it. */
  lemma AttemptsLand(acts: seq<Action>, p: Pid)
    requires p in Run(NEW, acts).procs
    requires Run(NEW, acts).procs[p].phase.BootRead? || Run(NEW, acts).procs[p].phase.CleanRead?
    ensures var s := Run(NEW, acts);
            var t, free := Step(s, Go(p, Ok)), s.files.running == None || s.files.running == Some(p);
            && p in t.procs
            && t.files == s.files.(running := if free then Some(p) else s.files.running)
            && (s.procs[p].phase.BootRead? ==>
                  if free then t.procs[p].phase == Serving0(s.files.record) else t.procs[p].phase == BootRefused)
            && (s.procs[p].phase.CleanRead? ==> t.procs[p].phase == if free then Cleaning else Release0(false))
  {
    RunKeepsInv(NEW, acts);
    var s := Run(NEW, acts);
    assert Local(s.files, s.procs[p], p);
  }

  // ---- What a failing call leads to ----

  /** A shim that is up, or still coming up. */
  predicate ComingUp(ph: Phase) {
    ph.Boot? || ph.BootLocked? || ph.BootRead? || ph.Serving0? || ph.Serving1? || ph.Serving?
  }

  predicate GoingDown(ph: Phase) {
    ph.BootRefused? || ph.Quit0? || ph.Quit1? || ph.Doomed?
  }

  lemma {:induction false} DownStaysDown(s: State, p: Pid, acts: seq<Action>)
    requires p in s.procs && GoingDown(s.procs[p].phase) && Die(p) !in acts
    ensures var t := Run(s, acts);
            p in t.procs && GoingDown(t.procs[p].phase)
    decreases |acts|
  {
    if acts != [] {
      assert acts[0] != Die(p);
      DownStaysDown(Step(s, acts[0]), p, acts[1..]);
    }
  }

  /** A shim of which a call fails before it serves, or whose container fails while it does, never serves
      again: in every continuation it is on its way out until it dies. The failure itself writes nothing. */
  lemma FailureIsFinal(before: seq<Action>, p: Pid, after: seq<Action>)
    requires p in Run(NEW, before).procs && ComingUp(Run(NEW, before).procs[p].phase) && Die(p) !in after
    ensures var s := Run(NEW, before);
            var t := Run(Step(s, Go(p, Fault)), after);
            && p in t.procs && GoingDown(t.procs[p].phase) && !InCharge(t.procs[p].phase)
            && Step(s, Go(p, Fault)).files == s.files
  {
    RunKeepsInv(NEW, before);
    var s := Run(NEW, before);
    assert Local(s.files, s.procs[p], p);
    DownStaysDown(Step(s, Go(p, Fault)), p, after);
  }

  lemma ActGoesDown(fs: Files, pr: Proc, p: Pid)
    requires Local(fs, pr, p) && GoingDown(pr.phase) && !pr.phase.Doomed?
    ensures var (gs, qr) := Act(fs, pr, p, Ok);
            && gs.record == fs.record
            && gs.status == (if pr.flags.status then None else fs.status)
            && (if pr.phase.Quit0? then qr == Booting(false, true, Quit1) && gs.running == Some(p)
                else qr.phase.Doomed? && gs.running == if pr.phase.Quit1? then None else fs.running)
  {
  }

  predicate Gone(fs: Files, pr: Proc, t: State, p: Pid) {
    && p in t.procs && t.procs[p].phase.Doomed?
    && t.files.record == fs.record
    && t.files.status == (if pr.flags.status then None else fs.status)
    && t.files.running == (if Owner(pr.phase) then None else fs.running)
  }

  lemma QuitFrom1(s: State, fs: Files, p: Pid, n: nat)
    requires fs.running == Some(p) && n >= 1
    ensures Oks(Put(s, fs, p, Booting(false, true, Quit1)), p, n)
            == Put(s, fs.(running := None), p, Booting(false, false, Doomed))
  {
    LastOkAlone(s, fs, p, Booting(false, true, Quit1), fs.(running := None), Booting(false, false, Doomed), n);
  }

  lemma DownFrom(s: State, fs: Files, p: Pid, pr: Proc, n: nat)
    requires Local(fs, pr, p) && GoingDown(pr.phase) && n >= 2
    ensures Gone(fs, pr, Oks(Put(s, fs, p, pr), p, n), p)
  {
    if !pr.phase.Doomed? {
      var (gs, qr) := Act(fs, pr, p, Ok);
      ActGoesDown(fs, pr, p);
      if pr.phase.Quit0? {
        OkAlone(s, fs, p, pr, gs, qr, n);
        QuitFrom1(s, gs, p, n - 1);
      } else {
        LastOkAlone(s, fs, p, pr, gs, qr, n);
      }
    }
  }

  /** What it had it gives back: uninterrupted and if no more calls fail, a shim on its way out is done within
      two steps, without the status lock it knew of, without the running lock if that was its own, and with
      the record as it was. */
  lemma DownAlone(before: seq<Action>, p: Pid, n: nat)
    requires p in Run(NEW, before).procs && GoingDown(Run(NEW, before).procs[p].phase) && n >= 2
    ensures var s := Run(NEW, before); Gone(s.files, s.procs[p], Oks(s, p, n), p)
  {
    RunKeepsInv(NEW, before);
    var s := Run(NEW, before);
    PutItself(s, p, s.procs[p]);
    DownFrom(s, s.files, p, s.procs[p], n);
  }

  predicate InUpdate(ph: Phase) {
    ph.ExitWait? || ph.ExitLocked? || ph.ExitRead? || ph.CleanWait? || ph.CleanLocked? || ph.CleanRead?
  }

  function Home(kind: Kind): Phase {
    if kind.Shim? then Serving else Idle
  }

  /** Waiting, the process is home at once; under the lock it has one step to go. */
  lemma ActGoesBack(fs: Files, pr: Proc, p: Pid)
    requires Local(fs, pr, p) && InUpdate(pr.phase)
    ensures var (gs, qr) := Act(fs, pr, p, Fault);
            var (hs, hr) := Act(gs, qr, p, Ok);
            if pr.phase.ExitWait? || pr.phase.CleanWait? then gs == fs && qr.phase == Home(pr.kind)
            else !Settled(qr.phase) && hs == fs.(status := None) && hr.phase == Home(pr.kind)
  {
  }

  /** Recording an exit, cleaning up: when a call fails the process goes back to where it came from without a
      write, at once or with the next step, which gives the status lock back. */
  lemma FailureGoesBack(before: seq<Action>, p: Pid, n: nat)
    requires p in Run(NEW, before).procs && InUpdate(Run(NEW, before).procs[p].phase) && n >= 1
    ensures var s := Run(NEW, before);
            var ph, t := s.procs[p].phase, Oks(Step(s, Go(p, Fault)), p, n);
            && p in t.procs
            && t.procs[p].phase == Home(s.procs[p].kind)
            && t.files == (if ph.ExitWait? || ph.CleanWait? then s.files else s.files.(status := None))
  {
    RunKeepsInv(NEW, before);
    var s := Run(NEW, before);
    var pr := s.procs[p];
    assert Local(s.files, pr, p);
    ActGoesBack(s.files, pr, p);
    PutItself(s, p, pr);
    var (gs, qr) := Act(s.files, pr, p, Fault);
    GoAlone(s, s.files, p, pr, Fault, gs, qr);
    if !Settled(qr.phase) {
      var (hs, hr) := Act(gs, qr, p, Ok);
      LastOkAlone(s, gs, p, qr, hs, hr, n);
    }
  }

  /** Disabling twice with no shim about: the first process makes up an exit, which it reports but does
      not write, so the second finds the record disabled, no shim running and no exit: the case in which
      DisableReportsExitExactly says there is none to report. */
  lemma SecondDisableFindsNoExit() returns (acts: seq<Action>)
    ensures var s := Run(NEW, acts);
            && 1 in s.procs && s.procs[1].phase == TaskChecked(Disable, s.files.record, false)
            && DisableReport(s.files.record, false).exit.None?
  {
    var spawned := Extend(NEW, [], Spawn(1, Containerd));
    var five := [Ok, Ok, Ok, Ok, Ok];
    TaskAlone(spawned, 1, Disable, five);
    var s := Step(Run(NEW, spawned), Go(1, Task(Disable)));
    var once := SoloIsRun(s, 1, five);
    var begun := Extend(NEW, spawned, Go(1, Task(Disable)));
    RunConcat(NEW, begun, once);
    var twice := TaskChecks(Run(s, once), 1, Disable);
    RunConcat(NEW, begun + once, twice);
    acts := begun + once + twice;
  }
}
