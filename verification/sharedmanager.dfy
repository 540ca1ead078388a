/** Several goroutines of one process on one StatusManager (common/status.go, bundle/bundle.go,
    task/task.go, task/connection.go). They share its flags, so the status lock of one counts as the lock
    of all, and the first to finish gives it back for all. */
module SharedManager {
  import opened Common
  import opened FileLocks
  import opened ShimStatus
  import L = LockProtocol

  /** A process: its manager's flags, and where each of its goroutines stands. */
  datatype Process = Process(kind: L.Kind, flags: Flags, phases: seq<L.Phase>)

  datatype State = State(files: Files, procs: map<Pid, Process>)

  datatype Action = Spawn(p: Pid, kind: L.Kind) | Fork(p: Pid) | Die(p: Pid) | Go(p: Pid, i: nat, c: L.Choice)

  const NEW := State(L.NEW.files, map[])

  /** Processes are born with one goroutine; containerd starts more of them, up to n. Each takes the steps
      of LockProtocol, on the flags they share. */
  function Step(n: nat, s: State, a: Action): State {
    match a
    case Spawn(p, kind) =>
      if p in s.procs then s
      else s.(procs := s.procs[p := Process(kind, Flags(false, false), [if kind.Shim? then L.Boot else L.Idle])])
    case Fork(p) =>
      if p !in s.procs || s.procs[p].kind.Shim? || |s.procs[p].phases| >= n then s
      else s.(procs := s.procs[p := s.procs[p].(phases := s.procs[p].phases + [L.Idle])])
    case Die(p) =>
      if p !in s.procs then s
      else State(L.Left(s.files, p), s.procs - {p})
    case Go(p, i, c) =>
      if p !in s.procs || i >= |s.procs[p].phases| then s
      else
        var pr := s.procs[p];
        var (fs', pr') := L.Act(s.files, L.Proc(pr.kind, pr.flags, pr.phases[i]), p, c);
        State(fs', s.procs[p := Process(pr.kind, pr'.flags, pr.phases[i := pr'.phase])])
  }

  function Run(n: nat, s: State, acts: seq<Action>): State
    decreases |acts|
  {
    if acts == [] then s else Run(n, Step(n, s, acts[0]), acts[1..])
  }

  // ---- One goroutine per manager: the protocol as it is ----

  predicate Single(s: State) {
    forall p :: p in s.procs ==> |s.procs[p].phases| == 1
  }

  function Alone(s: State): L.State
    requires Single(s)
  {
    L.State(s.files, map p | p in s.procs :: L.Proc(s.procs[p].kind, s.procs[p].flags, s.procs[p].phases[0]))
  }

  /** The step of the protocol that an action is, if it is one. */
  function Seen(a: Action): L.Action {
    match a
    case Spawn(p, kind) => L.Spawn(p, kind)
    case Die(p) => L.Die(p)
    case Go(p, _, c) => L.Go(p, c)
    case Fork(p) => L.Spawn(p, L.Containerd)
  }

  predicate Idles(s: State, a: Action) {
    a.Fork? || (a.Go? && a.i > 0)
  }

  lemma GoIsSeen(n: nat, s: State, p: Pid, c: L.Choice)
    requires Single(s) && L.Inv(Alone(s)) && p in s.procs
    ensures var t := Step(n, s, Go(p, 0, c)); Single(t) && Alone(t) == L.Step(Alone(s), L.Go(p, c))
  {
    L.ActIsLocal(s.files, Alone(s).procs[p], p, c);
    var t := Step(n, s, Go(p, 0, c));
    assert Alone(t).procs == L.Step(Alone(s), L.Go(p, c)).procs;
  }

  lemma SpawnIsSeen(n: nat, s: State, p: Pid, kind: L.Kind)
    requires Single(s)
    ensures var t := Step(n, s, Spawn(p, kind)); Single(t) && Alone(t) == L.Step(Alone(s), L.Spawn(p, kind))
  {
    var t := Step(n, s, Spawn(p, kind));
    assert Alone(t).procs == L.Step(Alone(s), L.Spawn(p, kind)).procs;
  }

  lemma DieIsSeen(n: nat, s: State, p: Pid)
    requires Single(s)
    ensures var t := Step(n, s, Die(p)); Single(t) && Alone(t) == L.Step(Alone(s), L.Die(p))
  {
    var t := Step(n, s, Die(p));
    assert Alone(t).procs == L.Step(Alone(s), L.Die(p)).procs;
  }

  /** With one goroutine a manager takes the steps of LockProtocol, or none. */
  lemma StepIsSeen(n: nat, s: State, a: Action)
    requires n <= 1 && Single(s) && L.Inv(Alone(s))
    ensures var t := Step(n, s, a); Single(t) && Alone(t) == if Idles(s, a) then Alone(s) else L.Step(Alone(s), Seen(a))
  {
    match a
    case Spawn(p, kind) => SpawnIsSeen(n, s, p, kind);
    case Die(p) => DieIsSeen(n, s, p);
    case Fork(p) => assert Step(n, s, a) == s;
    case Go(p, i, c) =>
      if i == 0 && p in s.procs {
        GoIsSeen(n, s, p, c);
      } else {
        assert Step(n, s, a) == s;
      }
  }

  /** So its runs are runs of LockProtocol. */
  lemma {:induction false} RunIsSeen(n: nat, s: State, acts: seq<Action>) returns (seen: seq<L.Action>)
    requires n <= 1 && Single(s) && L.Inv(Alone(s))
    ensures var t := Run(n, s, acts); Single(t) && Alone(t) == L.Run(Alone(s), seen) && L.Inv(Alone(t))
    decreases |acts|
  {
    if acts == [] {
      seen := [];
    } else {
      StepIsSeen(n, s, acts[0]);
      if !Idles(s, acts[0]) {
        L.StepKeepsInv(Alone(s), Seen(acts[0]));
      }
      var rest := RunIsSeen(n, Step(n, s, acts[0]), acts[1..]);
      seen := if Idles(s, acts[0]) then rest else [Seen(acts[0])] + rest;
      assert !Idles(s, acts[0]) ==> seen[1..] == rest;
    }
  }

  lemma StepMovesForward(n: nat, s: State, a: Action)
    requires n <= 1 && Single(s) && L.Inv(Alone(s))
    ensures Forward(s.files.record, Step(n, s, a).files.record)
  {
    StepIsSeen(n, s, a);
    if !Idles(s, a) {
      L.StepKeepsLocal(Alone(s), Seen(a));
    }
  }

  // ---- Any number of goroutines: what survives ----

  /** No shim is, or may soon be, the running one. */
  predicate NoShim(s: State) {
    s.files.running.Some? ==> s.files.running.value in s.procs && s.procs[s.files.running.value].kind.Containerd?
  }

  /** What any goroutine may rely on: a flag set means ownership of the status lock. */
  predicate Honest(fs: Files, fl: Flags, p: Pid) {
    fl.status ==> fs.status == Some(p)
  }

  /** Copies of a disabled record are of a record that is disabled now, and a goroutine of containerd that
      read one and found no shim still finds none. */
  predicate Current(s: State, ph: L.Phase) {
    && !L.ShimPhase(ph)
    && (L.Copy(ph).Some? && L.Copy(ph).value.disabled ==> s.files.record.disabled)
    && (ph.TaskChecked? && !ph.running && ph.copy.disabled ==> NoShim(s))
  }

  /** A shim has one goroutine, which relies on what LockProtocol gives it. */
  predicate Sound(s: State, p: Pid)
    requires p in s.procs
  {
    var pr := s.procs[p];
    && Honest(s.files, pr.flags, p)
    && (pr.kind.Shim? ==> |pr.phases| == 1 && L.Local(s.files, L.Proc(pr.kind, pr.flags, pr.phases[0]), p))
    && (pr.kind.Containerd? ==> forall i :: 0 <= i < |pr.phases| ==> Current(s, pr.phases[i]))
  }

  ghost predicate Inv(s: State) {
    && (forall p :: p in s.procs ==> Sound(s, p))
    && (s.files.status.Some? ==> s.files.status.value in s.procs)
    && (s.files.running.Some? ==> s.files.running.value in s.procs)
  }

  /** What a step of p does to the files, seen from another process. A record that is disabled stays so. */
  predicate Tame(fs: Files, fs': Files, p: Pid) {
    && (fs'.status == fs.status || (CanTake(fs.status, p) && CanTake(fs'.status, p)))
    && (fs'.running == fs.running || (CanTake(fs.running, p) && CanTake(fs'.running, p)))
    && (fs'.record != fs.record ==> CanTake(fs.status, p))
    && (fs.record.disabled ==> fs'.record.disabled)
  }

  lemma TaskIsTame(fs: Files, pr: L.Proc, p: Pid, c: L.Choice)
    requires Honest(fs, pr.flags, p)
    requires pr.phase.Idle? || pr.phase.TaskWait? || pr.phase.TaskLocked? || pr.phase.TaskRead?
          || pr.phase.TaskChecked? || pr.phase.TaskDone?
    ensures var (fs', pr') := L.Act(fs, pr, p, c);
            Tame(fs, fs', p) && Honest(fs', pr'.flags, p) && !L.ShimPhase(pr'.phase) && pr'.kind == pr.kind
  {
  }

  lemma CleanupIsTame(fs: Files, pr: L.Proc, p: Pid, c: L.Choice)
    requires Honest(fs, pr.flags, p)
    requires pr.phase.CleanWait? || pr.phase.CleanLocked? || pr.phase.CleanRead? || pr.phase.CleanFailed?
          || pr.phase.Cleaning? || pr.phase.Release0? || pr.phase.Release1?
    ensures var (fs', pr') := L.Act(fs, pr, p, c);
            Tame(fs, fs', p) && Honest(fs', pr'.flags, p) && !L.ShimPhase(pr'.phase) && pr'.kind == pr.kind
  {
  }

  lemma ContainerdIsTame(fs: Files, pr: L.Proc, p: Pid, c: L.Choice)
    requires Honest(fs, pr.flags, p) && !L.ShimPhase(pr.phase)
    ensures var (fs', pr') := L.Act(fs, pr, p, c);
            Tame(fs, fs', p) && Honest(fs', pr'.flags, p) && !L.ShimPhase(pr'.phase) && pr'.kind == pr.kind
  {
    var ph := pr.phase;
    if ph.Idle? || ph.TaskWait? || ph.TaskLocked? || ph.TaskRead? || ph.TaskChecked? || ph.TaskDone? {
      TaskIsTame(fs, pr, p, c);
    } else {
      CleanupIsTame(fs, pr, p, c);
    }
  }

  lemma ShimIsTame(fs: Files, pr: L.Proc, p: Pid, c: L.Choice)
    requires L.Local(fs, pr, p)
    ensures var (fs', pr') := L.Act(fs, pr, p, c);
            Tame(fs, fs', p) && L.Local(fs', pr', p) && pr'.kind == pr.kind
  {
    L.ActGuarantees(fs, pr, p, c);
    L.ActIsLocal(fs, pr, p, c);
  }

  /** A new copy is of the current record, and a new look at the running lock is of the current owner. */
  lemma CopiesAreCurrent(fs: Files, pr: L.Proc, p: Pid, c: L.Choice)
    requires !L.ShimPhase(pr.phase)
    ensures var (fs', pr') := L.Act(fs, pr, p, c);
            && (L.Copy(pr'.phase).Some? ==>
                  L.Copy(pr'.phase) == L.Copy(pr.phase) || L.Copy(pr'.phase).value == fs'.record)
            && (pr'.phase.TaskChecked? && !pr'.phase.running ==>
                  fs'.running == fs.running && (pr'.phase == pr.phase || CanTake(fs.running, p)))
  {
  }

  lemma TameKeepsShim(fs: Files, fs': Files, p: Pid, other: L.Proc, q: Pid)
    requires Tame(fs, fs', p) && p != q && L.Local(fs, other, q)
    ensures L.Local(fs', other, q)
  {
  }

  /** No shim becomes the running one while the record is disabled. */
  lemma GoKeepsNoShim(n: nat, s: State, a: Action)
    requires Inv(s) && NoShim(s) && s.files.record.disabled
    ensures NoShim(Step(n, s, a))
  {
    if a.Go? && a.p in s.procs && a.i < |s.procs[a.p].phases| {
      var pr := s.procs[a.p];
      assert Sound(s, a.p);
      if pr.kind.Shim? {
        L.ActGuarantees(s.files, L.Proc(pr.kind, pr.flags, pr.phases[a.i]), a.p, a.c);
      } else {
        ContainerdIsTame(s.files, L.Proc(pr.kind, pr.flags, pr.phases[a.i]), a.p, a.c);
      }
    }
  }

  lemma StepIsTame(n: nat, s: State, a: Action)
    requires Inv(s)
    ensures var t := Step(n, s, a);
            && (s.files.record.disabled ==> t.files.record.disabled)
            && (t.files.status.Some? ==> t.files.status.value in t.procs)
            && (t.files.running.Some? ==> t.files.running.value in t.procs)
            && (a.Go? && a.p in s.procs ==> Tame(s.files, t.files, a.p))
  {
    if a.Go? && a.p in s.procs && a.i < |s.procs[a.p].phases| {
      var pr := s.procs[a.p];
      assert Sound(s, a.p);
      if pr.kind.Shim? {
        ShimIsTame(s.files, L.Proc(pr.kind, pr.flags, pr.phases[a.i]), a.p, a.c);
      } else {
        ContainerdIsTame(s.files, L.Proc(pr.kind, pr.flags, pr.phases[a.i]), a.p, a.c);
      }
    }
  }

  /** Where nobody moved, what was current still is. */
  lemma StaysCurrent(n: nat, s: State, a: Action, ph: L.Phase)
    requires Inv(s) && Current(s, ph)
    ensures Current(Step(n, s, a), ph)
  {
    StepIsTame(n, s, a);
    if s.files.record.disabled && NoShim(s) {
      GoKeepsNoShim(n, s, a);
    }
  }

  lemma OthersStaySound(n: nat, s: State, a: Action, q: Pid)
    requires Inv(s) && q in s.procs && q in Step(n, s, a).procs && Step(n, s, a).procs[q] == s.procs[q]
    requires a.Go? ==> a.p != q
    ensures Sound(Step(n, s, a), q)
  {
    var t, pr := Step(n, s, a), s.procs[q];
    assert Sound(s, q);
    StepIsTame(n, s, a);
    if pr.kind.Shim? {
      if a.Go? && a.p in s.procs {
        TameKeepsShim(s.files, t.files, a.p, L.Proc(pr.kind, pr.flags, pr.phases[0]), q);
      }
    } else {
      forall i | 0 <= i < |pr.phases| ensures Current(t, pr.phases[i]) {
        StaysCurrent(n, s, a, pr.phases[i]);
      }
    }
  }

  lemma ShimStaysSound(n: nat, s: State, p: Pid, i: nat, c: L.Choice)
    requires Inv(s) && p in s.procs && s.procs[p].kind.Shim?
    ensures Sound(Step(n, s, Go(p, i, c)), p)
  {
    assert Sound(s, p);
    if i == 0 {
      ShimIsTame(s.files, L.Proc(s.procs[p].kind, s.procs[p].flags, s.procs[p].phases[0]), p, c);
    }
  }

  lemma MoverIsCurrent(n: nat, s: State, p: Pid, i: nat, c: L.Choice)
    requires Inv(s) && p in s.procs && s.procs[p].kind.Containerd? && i < |s.procs[p].phases|
    ensures var t := Step(n, s, Go(p, i, c)); i < |t.procs[p].phases| && Current(t, t.procs[p].phases[i])
  {
    assert Sound(s, p);
    var pr := L.Proc(L.Containerd, s.procs[p].flags, s.procs[p].phases[i]);
    var t := Step(n, s, Go(p, i, c));
    assert Current(s, pr.phase);
    ContainerdIsTame(s.files, pr, p, c);
    CopiesAreCurrent(s.files, pr, p, c);
    StaysCurrent(n, s, Go(p, i, c), pr.phase);
  }

  lemma ContainerdStaysSound(n: nat, s: State, p: Pid, i: nat, c: L.Choice)
    requires Inv(s) && p in s.procs && s.procs[p].kind.Containerd?
    ensures Sound(Step(n, s, Go(p, i, c)), p)
  {
    assert Sound(s, p);
    var t := Step(n, s, Go(p, i, c));
    if i < |s.procs[p].phases| {
      ContainerdIsTame(s.files, L.Proc(L.Containerd, s.procs[p].flags, s.procs[p].phases[i]), p, c);
      MoverIsCurrent(n, s, p, i, c);
      forall j | 0 <= j < |t.procs[p].phases| ensures Current(t, t.procs[p].phases[j]) {
        if j != i {
          StaysCurrent(n, s, Go(p, i, c), s.procs[p].phases[j]);
        }
      }
    }
  }

  lemma NewcomersAreSound(n: nat, s: State, a: Action, q: Pid)
    requires Inv(s) && !a.Go? && q in Step(n, s, a).procs && (q !in s.procs || Step(n, s, a).procs[q] != s.procs[q])
    ensures Sound(Step(n, s, a), q)
  {
    var t := Step(n, s, a);
    if a.Fork? {
      assert Sound(s, q);
      forall i | 0 <= i < |t.procs[q].phases| ensures Current(t, t.procs[q].phases[i]) {
        if i < |s.procs[q].phases| {
          StaysCurrent(n, s, a, s.procs[q].phases[i]);
        }
      }
    }
  }

  lemma StepKeepsInv(n: nat, s: State, a: Action)
    requires Inv(s)
    ensures Inv(Step(n, s, a))
  {
    var t := Step(n, s, a);
    StepIsTame(n, s, a);
    forall q | q in t.procs ensures Sound(t, q) {
      if a.Go? && a.p == q {
        if s.procs[q].kind.Shim? {
          ShimStaysSound(n, s, q, a.i, a.c);
        } else {
          ContainerdStaysSound(n, s, q, a.i, a.c);
        }
      } else if q in s.procs && t.procs[q] == s.procs[q] {
        OthersStaySound(n, s, a, q);
      } else {
        NewcomersAreSound(n, s, a, q);
      }
    }
  }

  lemma {:induction false} RunKeepsInv(n: nat, s: State, acts: seq<Action>)
    requires Inv(s)
    ensures Inv(Run(n, s, acts))
    decreases |acts|
  {
    if acts != [] {
      StepKeepsInv(n, s, acts[0]);
      RunKeepsInv(n, Step(n, s, acts[0]), acts[1..]);
    }
  }

  /** However many goroutines share a manager, disabled with no shim running is forever. */
  lemma {:induction false} DisabledIsForever(n: nat, s: State, acts: seq<Action>)
    requires Inv(s) && s.files.record.disabled && NoShim(s)
    ensures var t := Run(n, s, acts); t.files.record.disabled && NoShim(t)
    decreases |acts|
  {
    if acts != [] {
      StepKeepsInv(n, s, acts[0]);
      StepIsTame(n, s, acts[0]);
      GoKeepsNoShim(n, s, acts[0]);
      DisabledIsForever(n, Step(n, s, acts[0]), acts[1..]);
    }
  }

  lemma PhaseTellsKind(s: State, p: Pid, i: nat)
    requires p in s.procs && Sound(s, p) && i < |s.procs[p].phases|
    ensures s.procs[p].kind.Shim? <==> L.ShimPhase(s.procs[p].phases[i])
  {
    if s.procs[p].kind.Containerd? {
      assert Current(s, s.procs[p].phases[i]);
    }
  }

  /** And a goroutine that read the record as disabled and then found no shim running can report the task
      stopped for good. */
  lemma StoppedReportIsFinal(n: nat, before: seq<Action>, p: Pid, i: nat, after: seq<Action>, q: Pid, j: nat)
    requires var s := Run(n, NEW, before);
             && p in s.procs && i < |s.procs[p].phases| && s.procs[p].phases[i].TaskChecked?
             && !s.procs[p].phases[i].running && s.procs[p].phases[i].copy.disabled
    requires var t := Run(n, Run(n, NEW, before), after);
             q in t.procs && t.procs[q].kind.Shim? && j < |t.procs[q].phases|
    ensures !L.InCharge(Run(n, Run(n, NEW, before), after).procs[q].phases[j])
  {
    RunKeepsInv(n, NEW, before);
    var s := Run(n, NEW, before);
    assert Sound(s, p);
    PhaseTellsKind(s, p, i);
    assert Current(s, s.procs[p].phases[i]);
    DisabledIsForever(n, s, after);
    RunKeepsInv(n, s, after);
    assert Sound(Run(n, s, after), q);
  }

  // ---- Two goroutines: what does not ----

  /** Containerd has two goroutines, and shim process 2 may be there too. */
  function Two(fs: Files, fl: Flags, first: L.Phase, second: L.Phase, shim: Option<L.Proc>): State {
    var containerd := Process(L.Containerd, fl, [first, second]);
    State(fs, if shim.None? then map[1 := containerd]
              else map[1 := containerd, 2 := Process(shim.value.kind, shim.value.flags, [shim.value.phase])])
  }

  const NONE := Flags(false, false)
  const STATUS := Flags(true, false)
  const BOTH := Flags(true, true)

  lemma Extend(n: nat, acts: seq<Action>, a: Action) returns (longer: seq<Action>)
    ensures longer == acts + [a] && Run(n, NEW, longer) == Step(n, Run(n, NEW, acts), a)
  {
    longer := acts + [a];
    Concat(n, NEW, acts, [a]);
    assert [a][1..] == [];
    assert Run(n, Step(n, Run(n, NEW, acts), a), [a][1..]) == Step(n, Run(n, NEW, acts), a);
  }

  lemma {:induction false} Concat(n: nat, s: State, a: seq<Action>, b: seq<Action>)
    ensures Run(n, s, a + b) == Run(n, Run(n, s, a), b)
    decreases |a|
  {
    if a == [] {
      assert a + b == b;
    } else {
      assert (a + b)[1..] == a[1..] + b;
      Concat(n, Step(n, s, a[0]), a[1..], b);
    }
  }

  /** Only the first process differs. */
  lemma PutTwo(fs: Files, fl: Flags, first: L.Phase, second: L.Phase, shim: Option<L.Proc>,
               fs': Files, fl': Flags, first': L.Phase, second': L.Phase)
    ensures State(fs', Two(fs, fl, first, second, shim).procs[1 := Process(L.Containerd, fl', [first', second'])])
            == Two(fs', fl', first', second', shim)
  {
    var s, t := Two(fs, fl, first, second, shim), Two(fs', fl', first', second', shim);
    var pr := Process(L.Containerd, fl', [first', second']);
    if shim.None? {
      assert s.procs[1 := pr] == t.procs;
    } else {
      assert s.procs[1 := pr] == t.procs;
    }
  }

  lemma GoFirst(n: nat, acts: seq<Action>, fs: Files, fl: Flags, first: L.Phase, second: L.Phase, shim: Option<L.Proc>,
                c: L.Choice, fs': Files, fl': Flags, first': L.Phase) returns (longer: seq<Action>)
    requires Run(n, NEW, acts) == Two(fs, fl, first, second, shim)
    requires L.Act(fs, L.Proc(L.Containerd, fl, first), 1, c)
             == (fs', L.Proc(L.Containerd, fl', first'))
    ensures Run(n, NEW, longer) == Two(fs', fl', first', second, shim)
  {
    longer := Extend(n, acts, Go(1, 0, c));
    assert [first, second][0 := first'] == [first', second];
    PutTwo(fs, fl, first, second, shim, fs', fl', first', second);
  }

  lemma GoSecond(n: nat, acts: seq<Action>, fs: Files, fl: Flags, first: L.Phase, second: L.Phase, shim: Option<L.Proc>,
                 c: L.Choice, fs': Files, fl': Flags, second': L.Phase) returns (longer: seq<Action>)
    requires Run(n, NEW, acts) == Two(fs, fl, first, second, shim)
    requires L.Act(fs, L.Proc(L.Containerd, fl, second), 1, c)
             == (fs', L.Proc(L.Containerd, fl', second'))
    ensures Run(n, NEW, longer) == Two(fs', fl', first, second', shim)
  {
    longer := Extend(n, acts, Go(1, 1, c));
    assert [first, second][1 := second'] == [first, second'];
    PutTwo(fs, fl, first, second, shim, fs', fl', first, second');
  }

  lemma GoShim(n: nat, acts: seq<Action>, fs: Files, fl: Flags, first: L.Phase, second: L.Phase, shim: L.Proc,
               fs': Files, shim': L.Proc) returns (longer: seq<Action>)
    requires Run(n, NEW, acts) == Two(fs, fl, first, second, Some(shim))
    requires L.Act(fs, shim, 2, L.Ok) == (fs', shim') && shim'.kind == shim.kind
    ensures Run(n, NEW, longer) == Two(fs', fl, first, second, Some(shim'))
  {
    longer := Extend(n, acts, Go(2, 0, L.Ok));
    assert [shim.phase][0 := shim'.phase] == [shim'.phase];
    assert Run(n, NEW, longer).procs == Two(fs', fl, first, second, Some(shim')).procs;
  }

  const EMPTY := L.NEW.files.record
  const FREE := L.NEW.files
  const TAKEN := FREE.(status := Some(1))
  const CREATED := EMPTY.(pid := 2, created := true)

  lemma Begin(n: nat) returns (acts: seq<Action>)
    requires n >= 2
    ensures Run(n, NEW, acts) == Two(FREE, NONE, L.Idle, L.Idle, None)
  {
    acts := Extend(n, [], Spawn(1, L.Containerd));
    assert Run(n, NEW, acts).procs[1].phases == [L.Idle];
    acts := Extend(n, acts, Fork(1));
    assert [L.Idle] + [L.Idle] == [L.Idle, L.Idle];
    assert Run(n, NEW, acts).procs == Two(FREE, NONE, L.Idle, L.Idle, None).procs;
  }

  /** The first goroutine, in Disable, has read the record and found no shim. */
  lemma FirstReads(n: nat) returns (acts: seq<Action>)
    requires n >= 2
    ensures Run(n, NEW, acts) == Two(TAKEN, STATUS, L.TaskChecked(Disable, EMPTY, false), L.Idle, None)
  {
    acts := Begin(n);
    acts := GoFirst(n, acts, FREE, NONE, L.Idle, L.Idle, None, L.Task(Disable), FREE, NONE, L.TaskWait(Disable));
    acts := GoFirst(n, acts, FREE, NONE, L.TaskWait(Disable), L.Idle, None, L.Ok, TAKEN, STATUS, L.TaskLocked(Disable));
    acts := GoFirst(n, acts, TAKEN, STATUS, L.TaskLocked(Disable), L.Idle, None, L.Ok,
                    TAKEN, STATUS, L.TaskRead(Disable, EMPTY));
    acts := GoFirst(n, acts, TAKEN, STATUS, L.TaskRead(Disable, EMPTY), L.Idle, None, L.Ok,
                    TAKEN, STATUS, L.TaskChecked(Disable, EMPTY, false));
  }

  /** The second goroutine, in Exited, comes and goes, and takes the lock with it. */
  lemma SecondUnlocks(n: nat) returns (acts: seq<Action>)
    requires n >= 2
    ensures Run(n, NEW, acts) == Two(FREE, NONE, L.TaskChecked(Disable, EMPTY, false), L.Idle, None)
  {
    var first := L.TaskChecked(Disable, EMPTY, false);
    acts := FirstReads(n);
    acts := GoSecond(n, acts, TAKEN, STATUS, first, L.Idle, None, L.Task(Exited), TAKEN, STATUS, L.TaskWait(Exited));
    acts := GoSecond(n, acts, TAKEN, STATUS, first, L.TaskWait(Exited), None, L.Ok,
                     TAKEN, STATUS, L.TaskLocked(Exited));
    acts := SecondFinishes(n, acts, first);
  }

  lemma SecondFinishes(n: nat, acts: seq<Action>, first: L.Phase) returns (longer: seq<Action>)
    requires Run(n, NEW, acts) == Two(TAKEN, STATUS, first, L.TaskLocked(Exited), None)
    ensures Run(n, NEW, longer) == Two(FREE, NONE, first, L.Idle, None)
  {
    longer := GoSecond(n, acts, TAKEN, STATUS, first, L.TaskLocked(Exited), None, L.Ok,
                       TAKEN, STATUS, L.TaskRead(Exited, EMPTY));
    longer := GoSecond(n, longer, TAKEN, STATUS, first, L.TaskRead(Exited, EMPTY), None, L.Ok,
                       TAKEN, STATUS, L.TaskChecked(Exited, EMPTY, false));
    longer := SecondLeaves(n, longer, first);
  }

  lemma SecondLeaves(n: nat, acts: seq<Action>, first: L.Phase) returns (longer: seq<Action>)
    requires Run(n, NEW, acts) == Two(TAKEN, STATUS, first, L.TaskChecked(Exited, EMPTY, false), None)
    ensures Run(n, NEW, longer) == Two(FREE, NONE, first, L.Idle, None)
  {
    longer := GoSecond(n, acts, TAKEN, STATUS, first, L.TaskChecked(Exited, EMPTY, false), None, L.Ok,
                       TAKEN, STATUS, L.TaskDone);
    longer := GoSecond(n, longer, TAKEN, STATUS, first, L.TaskDone, None, L.Ok, FREE, NONE, L.Idle);
  }

  function ShimAt(status: bool, running: bool, ph: L.Phase): L.Proc {
    L.Proc(L.Shim, Flags(status, running), ph)
  }

  /** Meanwhile a shim starts its container and writes so. */
  lemma ShimStarts(n: nat) returns (acts: seq<Action>)
    requires n >= 2
    ensures Run(n, NEW, acts) == Two(Files(None, Some(2), CREATED), NONE, L.TaskChecked(Disable, EMPTY, false), L.Idle,
                                     Some(ShimAt(false, true, L.Serving)))
  {
    var first := L.TaskChecked(Disable, EMPTY, false);
    acts := SecondUnlocks(n);
    acts := ShimBoots(n, acts, first);
    acts := ShimServes(n, acts, first);
  }

  lemma ShimServes(n: nat, acts: seq<Action>, first: L.Phase) returns (longer: seq<Action>)
    requires Run(n, NEW, acts) == Two(Files(Some(2), Some(2), EMPTY), NONE, first, L.Idle,
                                      Some(ShimAt(true, true, L.Serving0(EMPTY))))
    ensures Run(n, NEW, longer) == Two(Files(None, Some(2), CREATED), NONE, first, L.Idle,
                                       Some(ShimAt(false, true, L.Serving)))
  {
    longer := GoShim(n, acts, Files(Some(2), Some(2), EMPTY), NONE, first, L.Idle,
                     ShimAt(true, true, L.Serving0(EMPTY)),
                     Files(Some(2), Some(2), CREATED), ShimAt(true, true, L.Serving1));
    longer := GoShim(n, longer, Files(Some(2), Some(2), CREATED), NONE, first, L.Idle, ShimAt(true, true, L.Serving1),
                     Files(None, Some(2), CREATED), ShimAt(false, true, L.Serving));
  }

  /** Both goroutines are cleaning the bundle, under the same two locks. */
  lemma BothClean(n: nat) returns (acts: seq<Action>)
    requires n >= 2
    ensures Run(n, NEW, acts) == Two(Files(Some(1), Some(1), EMPTY), BOTH, L.Cleaning, L.Cleaning, None)
  {
    acts := FirstCleans(n);
    var fs := Files(Some(1), Some(1), EMPTY);
    acts := GoSecond(n, acts, fs, BOTH, L.Cleaning, L.Idle, None, L.Clean, fs, BOTH, L.CleanWait);
    acts := GoSecond(n, acts, fs, BOTH, L.Cleaning, L.CleanWait, None, L.Ok, fs, BOTH, L.CleanLocked);
    acts := SecondCleans(n, acts, fs);
  }

  lemma SecondCleans(n: nat, acts: seq<Action>, fs: Files) returns (longer: seq<Action>)
    requires fs == Files(Some(1), Some(1), EMPTY)
    requires Run(n, NEW, acts) == Two(fs, BOTH, L.Cleaning, L.CleanLocked, None)
    ensures Run(n, NEW, longer) == Two(fs, BOTH, L.Cleaning, L.Cleaning, None)
  {
    longer := GoSecond(n, acts, fs, BOTH, L.Cleaning, L.CleanLocked, None, L.Ok, fs, BOTH, L.CleanRead(EMPTY));
    longer := GoSecond(n, longer, fs, BOTH, L.Cleaning, L.CleanRead(EMPTY), None, L.Ok, fs, BOTH, L.Cleaning);
  }

  lemma FirstCleans(n: nat) returns (acts: seq<Action>)
    requires n >= 2
    ensures Run(n, NEW, acts) == Two(Files(Some(1), Some(1), EMPTY), BOTH, L.Cleaning, L.Idle, None)
  {
    acts := Begin(n);
    acts := GoFirst(n, acts, FREE, NONE, L.Idle, L.Idle, None, L.Clean, FREE, NONE, L.CleanWait);
    acts := GoFirst(n, acts, FREE, NONE, L.CleanWait, L.Idle, None, L.Ok, TAKEN, STATUS, L.CleanLocked);
    acts := GoFirst(n, acts, TAKEN, STATUS, L.CleanLocked, L.Idle, None, L.Ok, TAKEN, STATUS, L.CleanRead(EMPTY));
    acts := GoFirst(n, acts, TAKEN, STATUS, L.CleanRead(EMPTY), L.Idle, None, L.Ok,
                    Files(Some(1), Some(1), EMPTY), BOTH, L.Cleaning);
  }

  /** The second is done and has given both locks back; the first goes on cleaning without them. */
  lemma SecondReleases(n: nat) returns (acts: seq<Action>)
    requires n >= 2
    ensures Run(n, NEW, acts) == Two(FREE, NONE, L.Cleaning, L.Idle, None)
  {
    acts := BothClean(n);
    var fs := Files(Some(1), Some(1), EMPTY);
    acts := GoSecond(n, acts, fs, BOTH, L.Cleaning, L.Cleaning, None, L.Ok, fs, BOTH, L.Release0(true));
    acts := GoSecond(n, acts, fs, BOTH, L.Cleaning, L.Release0(true), None, L.Ok,
                     Files(None, Some(1), EMPTY), Flags(false, true), L.Release1(true));
    acts := GoSecond(n, acts, Files(None, Some(1), EMPTY), Flags(false, true), L.Cleaning, L.Release1(true), None, L.Ok,
                     FREE, NONE, L.Idle);
  }

  /** A shim boots next to whatever the first goroutine is doing. */
  lemma ShimBoots(n: nat, acts: seq<Action>, first: L.Phase) returns (longer: seq<Action>)
    requires Run(n, NEW, acts) == Two(FREE, NONE, first, L.Idle, None)
    ensures Run(n, NEW, longer) == Two(Files(Some(2), Some(2), EMPTY), NONE, first, L.Idle,
                                       Some(ShimAt(true, true, L.Serving0(EMPTY))))
  {
    longer := Extend(n, acts, Spawn(2, L.Shim));
    assert Run(n, NEW, longer).procs == Two(FREE, NONE, first, L.Idle, Some(ShimAt(false, false, L.Boot))).procs;
    longer := GoShim(n, longer, FREE, NONE, first, L.Idle, ShimAt(false, false, L.Boot),
                     Files(Some(2), None, EMPTY), ShimAt(true, false, L.BootLocked));
    longer := ShimTakes(n, longer, first);
  }

  lemma ShimTakes(n: nat, acts: seq<Action>, first: L.Phase) returns (longer: seq<Action>)
    requires Run(n, NEW, acts)
             == Two(Files(Some(2), None, EMPTY), NONE, first, L.Idle, Some(ShimAt(true, false, L.BootLocked)))
    ensures Run(n, NEW, longer) == Two(Files(Some(2), Some(2), EMPTY), NONE, first, L.Idle,
                                       Some(ShimAt(true, true, L.Serving0(EMPTY))))
  {
    var fs := Files(Some(2), None, EMPTY);
    longer := GoShim(n, acts, fs, NONE, first, L.Idle, ShimAt(true, false, L.BootLocked),
                     fs, ShimAt(true, false, L.BootRead(EMPTY)));
    longer := GoShim(n, longer, fs, NONE, first, L.Idle, ShimAt(true, false, L.BootRead(EMPTY)),
                     Files(Some(2), Some(2), EMPTY), ShimAt(true, true, L.Serving0(EMPTY)));
  }

  // ---- Main results ----

  /** The state from which the first goroutine's write, under a lock of its own again, forgets that the
      container was created, and by whom. */
  lemma UpdateIsLost(n: nat) returns (acts: seq<Action>)
    requires n >= 2
    ensures var s := Run(n, NEW, acts);
            && s.files.record == Record(2, true, false, None)
            && Step(n, s, Go(1, 0, L.Ok)).files.record == Record(0, false, true, None)
  {
    acts := ShimStarts(n);
  }

  /** At most n goroutines share a manager, and the record still only moves forward. */
  ghost predicate Safe(n: nat) {
    forall acts, a :: Forward(Run(n, NEW, acts).files.record, Step(n, Run(n, NEW, acts), a).files.record)
  }

  /** Created, Disabled and Exit survive every run exactly if no two goroutines share a manager. */
  lemma UpdatesSurviveExactly(n: nat)
    ensures Safe(n) <==> n <= 1
  {
    if n <= 1 {
      forall acts, a ensures Forward(Run(n, NEW, acts).files.record, Step(n, Run(n, NEW, acts), a).files.record) {
        assert Alone(NEW) == L.NEW;
        var _ := RunIsSeen(n, NEW, acts);
        StepMovesForward(n, Run(n, NEW, acts), a);
      }
    } else {
      var acts := UpdateIsLost(n);
      var s := Run(n, NEW, acts);
      assert !Forward(s.files.record, Step(n, s, Go(1, 0, L.Ok)).files.record);
    }
  }

  predicate Busy(s: State, p: Pid, i: nat) {
    p in s.procs && i < |s.procs[p].phases| && L.InCharge(s.procs[p].phases[i])
  }

  /** At most n goroutines share a manager, and no two processes are in charge of a bundle at a time, and the
      one that is owns the running lock. */
  ghost predicate Exclusive(n: nat) {
    forall acts, p: Pid, i: nat, q: Pid, j: nat :: Busy(Run(n, NEW, acts), p, i) && Busy(Run(n, NEW, acts), q, j) ==>
      p == q && Run(n, NEW, acts).files.running == Some(p)
  }

  lemma SingleIsExclusive(n: nat, acts: seq<Action>, p: Pid, i: nat, q: Pid, j: nat)
    requires n <= 1 && Busy(Run(n, NEW, acts), p, i) && Busy(Run(n, NEW, acts), q, j)
    ensures p == q && Run(n, NEW, acts).files.running == Some(p)
  {
    assert Alone(NEW) == L.NEW;
    var seen := RunIsSeen(n, NEW, acts);
    L.MutualExclusion(seen, p, q);
  }

  /** Serving and cleaning exclude each other over all runs exactly if no two goroutines share a manager:
      with two, one can still be cleaning when the other gives the locks back and a shim takes them. */
  lemma ExclusionSurvivesExactly(n: nat)
    ensures Exclusive(n) <==> n <= 1
  {
    if n <= 1 {
      forall acts, p: Pid, i: nat, q: Pid, j: nat | Busy(Run(n, NEW, acts), p, i) && Busy(Run(n, NEW, acts), q, j)
        ensures p == q && Run(n, NEW, acts).files.running == Some(p)
      {
        SingleIsExclusive(n, acts, p, i, q, j);
      }
    } else {
      var acts := SecondReleases(n);
      acts := ShimBoots(n, acts, L.Cleaning);
      assert Busy(Run(n, NEW, acts), 1, 0) && Busy(Run(n, NEW, acts), 2, 0);
    }
  }

  /** Goroutine i of p is disabling the bundle and found no shim running. */
  predicate Killing(s: State, p: Pid, i: nat) {
    && p in s.procs && i < |s.procs[p].phases|
    && s.procs[p].phases[i].TaskChecked? && !s.procs[p].phases[i].running && s.procs[p].phases[i].op.Disable?
  }

  predicate ShimBusy(s: State, q: Pid, j: nat) {
    Busy(s, q, j) && s.procs[q].kind.Shim?
  }

  /** At most n goroutines share a manager, and after a goroutine that is disabling the bundle and found no
      shim running has written so, no shim is ever in charge. */
  ghost predicate KillIsFinal(n: nat) {
    forall before, p: Pid, i: nat, after, q: Pid, j: nat :: Killing(Run(n, NEW, before), p, i) ==>
      !ShimBusy(Run(n, Step(n, Run(n, NEW, before), Go(p, i, L.Ok)), after), q, j)
  }

  lemma GoThenRunIsSeen(n: nat, before: seq<Action>, p: Pid, i: nat, after: seq<Action>)
    returns (first: seq<L.Action>, rest: seq<L.Action>)
    requires n <= 1
    requires p in Run(n, NEW, before).procs && i < |Run(n, NEW, before).procs[p].phases|
    ensures var s := Run(n, NEW, before);
            var t := Run(n, Step(n, s, Go(p, i, L.Ok)), after);
            && Single(s) && Alone(s) == L.Run(L.NEW, first)
            && Single(t) && Alone(t) == L.Run(L.NEW, first + [L.Go(p, L.Ok)] + rest)
  {
    assert Alone(NEW) == L.NEW;
    first := RunIsSeen(n, NEW, before);
    var s, go := Run(n, NEW, before), L.Go(p, L.Ok);
    StepIsSeen(n, s, Go(p, i, L.Ok));
    L.StepKeepsInv(Alone(s), go);
    rest := RunIsSeen(n, Step(n, s, Go(p, i, L.Ok)), after);
    var longer := L.Extend(L.NEW, first, go);
    L.RunConcat(L.NEW, longer, rest);
  }

  lemma SingleKillIsFinal(n: nat, before: seq<Action>, p: Pid, i: nat, after: seq<Action>, q: Pid, j: nat)
    requires n <= 1 && Killing(Run(n, NEW, before), p, i)
    ensures !ShimBusy(Run(n, Step(n, Run(n, NEW, before), Go(p, i, L.Ok)), after), q, j)
  {
    var first, rest := GoThenRunIsSeen(n, before, p, i, after);
    if ShimBusy(Run(n, Step(n, Run(n, NEW, before), Go(p, i, L.Ok)), after), q, j) {
      L.KillReportIsFinal(first, p, rest, q);
    }
  }

  /** What a kill relies on holds over all runs exactly if no two goroutines share a manager: with two, a shim
      can come up between the look at the running lock and the write. */
  lemma KillSurvivesExactly(n: nat)
    ensures KillIsFinal(n) <==> n <= 1
  {
    if n <= 1 {
      forall before, p: Pid, i: nat, after, q: Pid, j: nat | Killing(Run(n, NEW, before), p, i)
        ensures !ShimBusy(Run(n, Step(n, Run(n, NEW, before), Go(p, i, L.Ok)), after), q, j)
      {
        SingleKillIsFinal(n, before, p, i, after, q, j);
      }
    } else {
      var before := ShimStarts(n);
      var none: seq<Action> := [];
      var s := Run(n, NEW, before);
      var t := Step(n, s, Go(1, 0, L.Ok));
      assert Killing(s, 1, 0) && Run(n, t, none) == t;
      assert t.procs[2] == s.procs[2];
      assert ShimBusy(Run(n, t, none), 2, 0);
    }
  }
}
