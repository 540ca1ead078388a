/** Start and exit events of one shim: client starts, the first start of init, kills and the single
    reaper, ordered by the sender's lock (shim/sender.go, shim/service.go, shim/shim.go). An exec
    process is a number; its pid is set once, by the start that succeeds. */
module EventSpec {
  import opened Common
  import opened Pools

  type Process = nat

  datatype Event =
    | ExecStarted(p: Process)
    | Exit(p: Process)
    | TaskStart | TaskResumed | TaskPaused
    | InitExit

  /** A client in Service.Start; all but the first phase hold the sender's lock. */
  datatype Starter = Waiting(p: Process) | Holding(p: Process) | Started(p: Process) | Leaving

  /** The shim's own start of init; BootDone is when it serves clients. */
  datatype Boot = BootWaiting | BootHolding | BootStarted | BootSent | BootFailed | BootDone | BootDead

  /** What the reaper still has to report of one exit. */
  datatype Report = OfExec(p: Process) | OfInit

  datatype State = State(
    first: bool,
    locked: bool,
    channel: seq<Event>,
    running: set<Process>,
    starters: seq<Starter>,
    boot: Boot,
    disabled: bool,
    reports: seq<Report>)

  datatype Action =
    | Start(p: Process)               // a client calls Start
    | GoStart(i: nat, ok: bool)       // starter i moves
    | GoBoot(ok: bool)
    | Kill                            // a client's SIGTERM or SIGKILL for init went through
    | Reap(reports: seq<Report>)      // the reaper matched these processes with an exit
    | GoReport

  function New(first: bool): State {
    State(first, false, [], {}, [], BootWaiting, false, [])
  }

  function Send(s: State, e: Event): State {
    s.(channel := s.channel + [e])
  }

  function StartEvent(s: State): Event {
    if s.first then TaskStart else TaskResumed
  }

  function Step(s: State, a: Action): State {
    match a
    case Start(p) => if s.boot.BootDone? then s.(starters := s.starters + [Waiting(p)]) else s
    case GoStart(i, ok) => if i < |s.starters| then StarterStep(s, i, ok) else s
    case GoBoot(ok) => BootStep(s, ok)
    case Kill => if s.boot.BootDone? then s.(disabled := true) else s
    case Reap(reports) =>
      if s.reports == [] && forall r :: r in reports && r.OfExec? ==> r.p in s.running then s.(reports := reports)
      else s
    case GoReport => if s.reports == [] then s else ReportStep(s)
  }

  /** A process that was started before refuses a second start. */
  function StarterStep(s: State, i: nat, ok: bool): State
    requires i < |s.starters|
  {
    match s.starters[i]
    case Waiting(p) => if s.locked then s else s.(locked := true, starters := s.starters[i := Holding(p)])
    case Holding(p) =>
      if ok && p !in s.running then s.(running := s.running + {p}, starters := s.starters[i := Started(p)])
      else s.(starters := s.starters[i := Leaving])
    case Started(p) => Send(s, ExecStarted(p)).(starters := s.starters[i := Leaving])
    case Leaving => s.(locked := false, starters := Remove(s.starters, i))
  }

  function BootStep(s: State, ok: bool): State {
    match s.boot
    case BootWaiting => if s.locked then s else s.(locked := true, boot := BootHolding)
    case BootHolding => s.(boot := if ok then BootStarted else BootFailed)
    case BootStarted => Send(s, StartEvent(s)).(boot := BootSent)
    case BootSent => s.(locked := false, boot := BootDone)
    case BootFailed => s.(locked := false, boot := BootDead)
    case _ => s
  }

  /** Exits wait for the sender's lock; a pause is sent without it. */
  function ReportStep(s: State): State
    requires s.reports != []
  {
    var t := s.(reports := s.reports[1..]);
    match s.reports[0]
    case OfExec(p) => if s.locked then s else Send(t, Exit(p))
    case OfInit =>
      if !s.disabled then Send(t, TaskPaused)
      else if s.locked then s
      else Send(t, InitExit)
  }

  function Run(s: State, acts: seq<Action>): State
    decreases |acts|
  {
    if acts == [] then s else Run(Step(s, acts[0]), acts[1..])
  }

  /** Every exit comes after the start it belongs to. */
  ghost predicate Ordered(s: State) {
    && (forall i :: 0 <= i < |s.channel| && s.channel[i].Exit? ==> ExecStarted(s.channel[i].p) in s.channel[..i])
    && (forall i :: 0 <= i < |s.channel| && s.channel[i].InitExit? ==> StartEvent(s) in s.channel[..i])
  }

  function Holds(): Starter -> nat {
    (x: Starter) => if x.Waiting? then 0 else 1
  }

  function BootHolds(s: State): nat {
    if s.boot.BootHolding? || s.boot.BootStarted? || s.boot.BootSent? || s.boot.BootFailed? then 1 else 0
  }

  ghost predicate Inv(s: State) {
    && Ordered(s)
    && Sum(s.starters, Holds()) + BootHolds(s) == (if s.locked then 1 else 0)
    && (forall p :: p in s.running ==> ExecStarted(p) in s.channel || Started(p) in s.starters)
    && (s.boot.BootSent? || s.boot.BootDone? <==> StartEvent(s) in s.channel)
    && (s.disabled ==> s.boot.BootDone?)
    && (forall r :: r in s.reports && r.OfExec? ==> r.p in s.running)
  }

  lemma SendKeepsOrder(s: State, e: Event)
    requires Ordered(s)
    requires e.Exit? ==> ExecStarted(e.p) in s.channel
    requires e.InitExit? ==> StartEvent(s) in s.channel
    ensures Ordered(Send(s, e))
  {
    var t := Send(s, e);
    forall i | 0 <= i < |t.channel|
      ensures t.channel[i].Exit? ==> ExecStarted(t.channel[i].p) in t.channel[..i]
      ensures t.channel[i].InitExit? ==> StartEvent(t) in t.channel[..i]
    {
      if i < |s.channel| {
        assert t.channel[..i] == s.channel[..i];
      } else {
        assert t.channel[..i] == s.channel;
      }
    }
  }

  /** With the lock free nobody is between starting a process and announcing it. */
  lemma {:induction false} NoneHolds(xs: seq<Starter>, x: Starter)
    requires Sum(xs, Holds()) == 0 && x in xs
    ensures x.Waiting?
  {
    if x in xs[1..] {
      NoneHolds(xs[1..], x);
    }
  }

  /** Replacing one starter leaves the others where they are. */
  lemma OthersStay(xs: seq<Starter>, i: nat, y: Starter, z: Starter)
    requires i < |xs| && z in xs && z != xs[i]
    ensures z in xs[i := y] && z in Remove(xs, i)
  {
    var j :| 0 <= j < |xs| && xs[j] == z;
    assert xs[i := y][j] == z;
    assert Remove(xs, i)[if j < i then j else j - 1] == z;
  }

  lemma TakeLockKeepsInv(s: State, i: nat, ok: bool)
    requires Inv(s) && i < |s.starters| && s.starters[i].Waiting?
    ensures Inv(StarterStep(s, i, ok))
  {
    if !s.locked {
      var y := Holding(s.starters[i].p);
      SumReplace(s.starters, i, y, Holds());
      forall p | Started(p) in s.starters ensures Started(p) in s.starters[i := y] {
        OthersStay(s.starters, i, y, Started(p));
      }
    }
  }

  lemma StartProcessKeepsInv(s: State, i: nat, ok: bool)
    requires Inv(s) && i < |s.starters| && s.starters[i].Holding?
    ensures Inv(StarterStep(s, i, ok))
  {
    var y := StarterStep(s, i, ok).starters[i];
    SumReplace(s.starters, i, y, Holds());
    assert y in s.starters[i := y];
    forall p | Started(p) in s.starters ensures Started(p) in s.starters[i := y] {
      OthersStay(s.starters, i, y, Started(p));
    }
  }

  lemma AnnounceKeepsInv(s: State, i: nat, ok: bool)
    requires Inv(s) && i < |s.starters| && s.starters[i].Started?
    ensures Inv(StarterStep(s, i, ok))
  {
    var x := s.starters[i];
    SumReplace(s.starters, i, Leaving, Holds());
    SendKeepsOrder(s, ExecStarted(x.p));
    forall p | Started(p) in s.starters && p != x.p ensures Started(p) in s.starters[i := Leaving] {
      OthersStay(s.starters, i, Leaving, Started(p));
    }
  }

  lemma LeaveKeepsInv(s: State, i: nat, ok: bool)
    requires Inv(s) && i < |s.starters| && s.starters[i].Leaving?
    ensures Inv(StarterStep(s, i, ok))
  {
    SumRemove(s.starters, i, Holds());
    forall p ensures Started(p) !in s.starters {
      if Started(p) in s.starters {
        OthersStay(s.starters, i, Leaving, Started(p));
        NoneHolds(Remove(s.starters, i), Started(p));
      }
    }
  }

  lemma StarterKeepsInv(s: State, i: nat, ok: bool)
    requires Inv(s) && i < |s.starters|
    ensures Inv(StarterStep(s, i, ok))
  {
    match s.starters[i]
    case Waiting(_) => TakeLockKeepsInv(s, i, ok);
    case Holding(_) => StartProcessKeepsInv(s, i, ok);
    case Started(_) => AnnounceKeepsInv(s, i, ok);
    case Leaving => LeaveKeepsInv(s, i, ok);
  }

  lemma BootSendKeepsInv(s: State)
    requires Inv(s) && s.boot.BootStarted?
    ensures Inv(Send(s, StartEvent(s)).(boot := BootSent))
  {
    var e := StartEvent(s);
    SendKeepsOrder(s, e);
    assert forall f :: f in Send(s, e).channel <==> f in s.channel || f == e;
  }

  /** Whoever moves only the lock, the boot and the flag leaves order and starts alone. */
  lemma SameEventsKeepInv(s: State, t: State)
    requires Inv(s) && t == s.(locked := t.locked, boot := t.boot, disabled := t.disabled)
    requires BootHolds(t) - BootHolds(s) == (if t.locked then 1 else 0) - (if s.locked then 1 else 0)
    requires t.boot.BootSent? || t.boot.BootDone? <==> s.boot.BootSent? || s.boot.BootDone?
    requires t.disabled ==> t.boot.BootDone?
    ensures Inv(t)
  {
    assert Ordered(t);
  }

  lemma BootKeepsInv(s: State, ok: bool)
    requires Inv(s)
    ensures Inv(BootStep(s, ok))
  {
    if s.boot.BootStarted? {
      BootSendKeepsInv(s);
    } else {
      SameEventsKeepInv(s, BootStep(s, ok));
    }
  }

  lemma SendKeepsInv(s: State, e: Event)
    requires Inv(s) && e != StartEvent(s)
    requires e.Exit? ==> ExecStarted(e.p) in s.channel
    requires e.InitExit? ==> StartEvent(s) in s.channel
    ensures Inv(Send(s, e))
  {
    SendKeepsOrder(s, e);
    assert forall f :: f in Send(s, e).channel <==> f in s.channel || f == e;
  }

  lemma ReportInitKeepsInv(s: State)
    requires Inv(s) && s.reports != [] && s.reports[0].OfInit?
    ensures Inv(ReportStep(s))
  {
    var t := s.(reports := s.reports[1..]);
    TailKeepsInv(s);
    if !s.disabled {
      SendKeepsInv(t, TaskPaused);
    } else if !s.locked {
      SendKeepsInv(t, InitExit);
    }
  }

  lemma ReportExecKeepsInv(s: State, p: Process)
    requires Inv(s) && s.reports != [] && s.reports[0] == OfExec(p)
    ensures Inv(ReportStep(s))
  {
    if !s.locked {
      var t := s.(reports := s.reports[1..]);
      TailKeepsInv(s);
      assert OfExec(p) in s.reports;
      if Started(p) in s.starters {
        NoneHolds(s.starters, Started(p));
      }
      SendKeepsInv(t, Exit(p));
    }
  }

  lemma TailKeepsInv(s: State)
    requires Inv(s) && s.reports != []
    ensures Inv(s.(reports := s.reports[1..]))
  {
    var t := s.(reports := s.reports[1..]);
    assert Ordered(t) && BootHolds(t) == BootHolds(s);
  }

  lemma ReportKeepsInv(s: State)
    requires Inv(s) && s.reports != []
    ensures Inv(ReportStep(s))
  {
    match s.reports[0]
    case OfExec(p) => ReportExecKeepsInv(s, p);
    case OfInit => ReportInitKeepsInv(s);
  }

  lemma EnterKeepsInv(s: State, p: Process)
    requires Inv(s)
    ensures Inv(Step(s, Action.Start(p)))
  {
    var t := s.(starters := s.starters + [Waiting(p)]);
    SumAppend(s.starters, Waiting(p), Holds());
    assert Ordered(t) && BootHolds(t) == BootHolds(s);
    forall q | q in s.running && Started(q) in s.starters ensures Started(q) in t.starters {
    }
    assert Inv(t);
  }

  lemma ReapKeepsInv(s: State, reports: seq<Report>)
    requires Inv(s)
    ensures Inv(Step(s, Reap(reports)))
  {
  }

  lemma KillKeepsInv(s: State)
    requires Inv(s)
    ensures Inv(Step(s, Kill))
  {
    SameEventsKeepInv(s, Step(s, Kill));
  }

  lemma StepKeepsInv(s: State, a: Action)
    requires Inv(s)
    ensures Inv(Step(s, a))
  {
    match a
    case Start(p) => EnterKeepsInv(s, p);
    case GoStart(i, ok) =>
      if i < |s.starters| {
        StarterKeepsInv(s, i, ok);
      }
    case GoBoot(ok) => BootKeepsInv(s, ok);
    case Kill => KillKeepsInv(s);
    case Reap(reports) => ReapKeepsInv(s, reports);
    case GoReport =>
      if s.reports != [] {
        ReportKeepsInv(s);
      }
  }

  lemma StepKeepsFirst(s: State, a: Action)
    ensures Step(s, a).first == s.first
  {
  }

  lemma {:induction false} RunKeepsInv(s: State, acts: seq<Action>)
    requires Inv(s)
    ensures Inv(Run(s, acts)) && Run(s, acts).first == s.first
    decreases |acts|
  {
    if acts != [] {
      StepKeepsInv(s, acts[0]);
      StepKeepsFirst(s, acts[0]);
      RunKeepsInv(Step(s, acts[0]), acts[1..]);
    }
  }

  /** In every interleaving of starts, exits and kills, an exec's exit follows its start in the
      channel, and init's exit follows the task's start (or, on a restart, its resumption). */
  lemma ExitsFollowStarts(first: bool, acts: seq<Action>, i: nat)
    requires i < |Run(New(first), acts).channel|
    ensures var c := Run(New(first), acts).channel;
            && (c[i].Exit? ==> ExecStarted(c[i].p) in c[..i])
            && (c[i].InitExit? ==> (if first then TaskStart else TaskResumed) in c[..i])
  {
    RunKeepsInv(New(first), acts);
  }

  // ---- Each start is announced once ----

  function Announces(e: Event): Event -> nat {
    (x: Event) => if x == e then 1 else 0
  }

  function WillAnnounce(p: Process): Starter -> nat {
    (x: Starter) => if x == Started(p) then 1 else 0
  }

  /** A process that was started is announced, or one client is about to announce it. */
  predicate Balanced(s: State, p: Process) {
    Sum(s.channel, Announces(ExecStarted(p))) + Sum(s.starters, WillAnnounce(p)) == if p in s.running then 1 else 0
  }

  predicate BootBalanced(s: State) {
    Sum(s.channel, Announces(StartEvent(s))) == if s.boot.BootSent? || s.boot.BootDone? then 1 else 0
  }

  lemma SendKeepsBalance(s: State, e: Event, p: Process)
    requires e != ExecStarted(p) && e != StartEvent(s)
    ensures Balanced(Send(s, e), p) <==> Balanced(s, p)
    ensures BootBalanced(Send(s, e)) <==> BootBalanced(s)
  {
    SumAppend(s.channel, e, Announces(ExecStarted(p)));
    SumAppend(s.channel, e, Announces(StartEvent(s)));
  }

  lemma AnnounceKeepsBalance(s: State, i: nat, p: Process)
    requires Balanced(s, p) && BootBalanced(s) && i < |s.starters| && s.starters[i].Started?
    ensures var t := StarterStep(s, i, true); Balanced(t, p) && BootBalanced(t)
  {
    var q := s.starters[i].p;
    SumReplace(s.starters, i, Leaving, WillAnnounce(p));
    SumAppend(s.channel, ExecStarted(q), Announces(ExecStarted(p)));
    SumAppend(s.channel, ExecStarted(q), Announces(StartEvent(s)));
  }

  lemma StartKeepsBalance(s: State, i: nat, ok: bool, p: Process)
    requires Balanced(s, p) && i < |s.starters| && s.starters[i].Holding?
    ensures Balanced(StarterStep(s, i, ok), p)
  {
    var q := s.starters[i].p;
    SumReplace(s.starters, i, if ok && q !in s.running then Started(q) else Leaving, WillAnnounce(p));
  }

  lemma StarterKeepsBalance(s: State, i: nat, ok: bool, p: Process)
    requires Balanced(s, p) && BootBalanced(s) && i < |s.starters|
    ensures var t := StarterStep(s, i, ok); Balanced(t, p) && BootBalanced(t)
  {
    match s.starters[i]
    case Waiting(q) => SumReplace(s.starters, i, Holding(q), WillAnnounce(p));
    case Holding(_) => StartKeepsBalance(s, i, ok, p);
    case Started(_) => AnnounceKeepsBalance(s, i, p);
    case Leaving => SumRemove(s.starters, i, WillAnnounce(p));
  }

  lemma BootSendKeepsBalance(s: State, p: Process)
    requires Balanced(s, p) && BootBalanced(s) && s.boot.BootStarted?
    ensures var t := Send(s, StartEvent(s)).(boot := BootSent); Balanced(t, p) && BootBalanced(t)
  {
    SumAppend(s.channel, StartEvent(s), Announces(ExecStarted(p)));
    SumAppend(s.channel, StartEvent(s), Announces(StartEvent(s)));
  }

  lemma QuietKeepsBalance(s: State, t: State, p: Process)
    requires Balanced(s, p) && BootBalanced(s) && t == s.(locked := t.locked, boot := t.boot)
    requires t.boot.BootSent? || t.boot.BootDone? <==> s.boot.BootSent? || s.boot.BootDone?
    ensures Balanced(t, p) && BootBalanced(t)
  {
  }

  lemma BootKeepsBalance(s: State, ok: bool, p: Process)
    requires Balanced(s, p) && BootBalanced(s)
    ensures Balanced(BootStep(s, ok), p) && BootBalanced(BootStep(s, ok))
  {
    if s.boot.BootStarted? {
      BootSendKeepsBalance(s, p);
    } else {
      QuietKeepsBalance(s, BootStep(s, ok), p);
    }
  }

  lemma ReportKeepsBalance(s: State, p: Process)
    requires Balanced(s, p) && BootBalanced(s) && s.reports != []
    ensures Balanced(ReportStep(s), p) && BootBalanced(ReportStep(s))
  {
    var t := s.(reports := s.reports[1..]);
    match s.reports[0]
    case OfExec(q) => SendKeepsBalance(t, Exit(q), p);
    case OfInit => SendKeepsBalance(t, if s.disabled then InitExit else TaskPaused, p);
  }

  lemma StepKeepsBalance(s: State, a: Action, p: Process)
    requires Balanced(s, p) && BootBalanced(s)
    ensures Balanced(Step(s, a), p) && BootBalanced(Step(s, a))
  {
    match a
    case Start(q) => SumAppend(s.starters, Waiting(q), WillAnnounce(p));
    case GoStart(i, ok) =>
      if i < |s.starters| {
        StarterKeepsBalance(s, i, ok, p);
      }
    case GoBoot(ok) => BootKeepsBalance(s, ok, p);
    case GoReport =>
      if s.reports != [] {
        ReportKeepsBalance(s, p);
      }
    case _ =>
  }

  lemma {:induction false} RunKeepsBalance(s: State, acts: seq<Action>, p: Process)
    requires Balanced(s, p) && BootBalanced(s)
    ensures Balanced(Run(s, acts), p) && BootBalanced(Run(s, acts))
    decreases |acts|
  {
    if acts != [] {
      StepKeepsBalance(s, acts[0], p);
      RunKeepsBalance(Step(s, acts[0]), acts[1..], p);
    }
  }

  /** However many clients start the same exec, its start is announced at most once, and exactly once when it
      was started and nobody is about to announce it; and the start of the task exactly once if it succeeded. */
  lemma StartsAreAnnouncedOnce(first: bool, acts: seq<Action>, p: Process)
    ensures var s := Run(New(first), acts);
            var n := multiset(s.channel)[ExecStarted(p)];
            && n <= 1
            && (n == 1 <==> p in s.running && Started(p) !in s.starters)
            && multiset(s.channel)[if first then TaskStart else TaskResumed]
               == (if s.boot.BootSent? || s.boot.BootDone? then 1 else 0)
  {
    var s := Run(New(first), acts);
    RunKeepsBalance(New(first), acts, p);
    RunKeepsInv(New(first), acts);
    SumCounts(s.channel, ExecStarted(p));
    SumCounts(s.channel, StartEvent(s));
    NobodyAnnounces(s.starters, p);
  }

  lemma {:induction false} SumCounts(c: seq<Event>, e: Event)
    ensures Sum(c, Announces(e)) == multiset(c)[e]
  {
    if c != [] {
      SumCounts(c[1..], e);
      assert c == [c[0]] + c[1..];
    }
  }

  lemma {:induction false} NobodyAnnounces(xs: seq<Starter>, p: Process)
    ensures Sum(xs, WillAnnounce(p)) == 0 <==> Started(p) !in xs
  {
    if xs != [] {
      NobodyAnnounces(xs[1..], p);
    }
  }

  /** The pause that stands for init's exit while the bundle is not disabled enjoys no such order: it
      follows the start exactly if the starting section had already sent when the pause is sent. */
  lemma PauseFollowsStartExactly(first: bool, acts: seq<Action>)
    requires var s := Run(New(first), acts); s.reports != [] && s.reports[0].OfInit? && !s.disabled
    ensures var s := Run(New(first), acts);
            var c := Step(s, GoReport).channel;
            && c == s.channel + [TaskPaused]
            && (StartEvent(s) in c[..|c| - 1] <==> s.boot.BootSent? || s.boot.BootDone?)
  {
    RunKeepsInv(New(first), acts);
    var s := Run(New(first), acts);
    assert (s.channel + [TaskPaused])[..|s.channel|] == s.channel;
  }

  /** An init process that exits right after its start can be announced as paused before it is
      announced as started, because the pause does not wait for the lock. */
  lemma PauseOvertakesStart()
    ensures Run(New(true), [GoBoot(true), GoBoot(true), Reap([OfInit]), GoReport, GoBoot(true)]).channel
            == [TaskPaused, TaskStart]
  {
    var s := Step(Step(New(true), GoBoot(true)), GoBoot(true));
    var t := Step(Step(s, Reap([OfInit])), GoReport);
    assert t.channel == [TaskPaused];
    var acts := [GoBoot(true), GoBoot(true), Reap([OfInit]), GoReport, GoBoot(true)];
    assert acts[1..][1..] == [Reap([OfInit]), GoReport, GoBoot(true)];
    assert acts[1..][1..][1..][1..] == [GoBoot(true)];
    assert Run(t, [GoBoot(true)]).channel == [TaskPaused, TaskStart];
    assert Run(s, acts[1..][1..]) == Run(t, [GoBoot(true)]);
  }

  // ---- What each operation does ----

  /** A client start that nobody interrupts announces exactly a process that it started, under the lock. */
  lemma StartAlone(s: State, p: Process, ok: bool)
    requires s.boot.BootDone? && !s.locked && (p in s.running ==> !ok)
    ensures var n := |s.starters|;
            Run(s, [Action.Start(p), GoStart(n, true), GoStart(n, ok), GoStart(n, true), GoStart(n, true)])
            == s.(channel := s.channel + (if ok then [ExecStarted(p)] else []),
                  running := s.running + (if ok then {p} else {}))
  {
    var n := |s.starters|;
    RunFive(s, Action.Start(p), GoStart(n, true), GoStart(n, ok), GoStart(n, true), GoStart(n, true));
    assert (s.starters + [Waiting(p)])[n := Holding(p)] == s.starters + [Holding(p)];
    var t := s.(locked := true, starters := s.starters + [Holding(p)]);
    assert Step(Step(s, Action.Start(p)), GoStart(n, true)) == t;
    if ok {
      StartsAlone(t, s.starters, p);
    } else {
      RefusedAlone(t, s.starters, p);
      assert s.channel + [] == s.channel && s.running + {} == s.running;
    }
  }

  lemma StartsAlone(s: State, pool: seq<Starter>, p: Process)
    requires s.starters == pool + [Holding(p)] && p !in s.running
    ensures var go := GoStart(|pool|, true);
            Step(Step(Step(s, go), go), go)
            == s.(locked := false, channel := s.channel + [ExecStarted(p)],
                  running := s.running + {p}, starters := pool)
  {
    assert (pool + [Holding(p)])[|pool| := Started(p)] == pool + [Started(p)];
    assert (pool + [Started(p)])[|pool| := Leaving] == pool + [Leaving];
    assert Remove(pool + [Leaving], |pool|) == pool;
  }

  lemma RefusedAlone(s: State, pool: seq<Starter>, p: Process)
    requires s.starters == pool + [Holding(p)]
    ensures var n := |pool|;
            Step(Step(Step(s, GoStart(n, false)), GoStart(n, true)), GoStart(n, true))
            == s.(locked := false, starters := pool)
  {
    assert (pool + [Holding(p)])[|pool| := Leaving] == pool + [Leaving];
    assert Remove(pool + [Leaving], |pool|) == pool;
  }

  /** The start of init announces the start of the task, or its resumption after a restart, and then the
      shim serves clients; a start that fails announces nothing, and the shim does not serve. */
  lemma BootAlone(first: bool, ok: bool)
    ensures var go := GoBoot(true);
            var t := Step(Step(Step(Step(New(first), go), GoBoot(ok)), go), go);
            && !t.locked && t.reports == [] && t.starters == []
            && t.channel == (if !ok then [] else if first then [TaskStart] else [TaskResumed])
            && t.boot == (if ok then BootDone else BootDead)
  {
  }

  /** A report that need not wait sends its event and is done; one that has to wait does nothing. */
  lemma ReportAlone(s: State)
    requires s.reports != []
    ensures var r, t := s.reports[0], Step(s, GoReport);
            && (r.OfExec? && !s.locked ==> t == s.(channel := s.channel + [Exit(r.p)], reports := s.reports[1..]))
            && (r.OfInit? && !s.disabled ==> t == s.(channel := s.channel + [TaskPaused], reports := s.reports[1..]))
            && (r.OfInit? && s.disabled && !s.locked ==>
                  t == s.(channel := s.channel + [InitExit], reports := s.reports[1..]))
            && (s.locked && (r.OfExec? || s.disabled) ==> t == s)
  {
  }

  /** The reaper takes the next exit once it is done with the last; a kill disables a shim that serves. */
  lemma ReapAndKill(s: State, reports: seq<Report>)
    ensures s.reports == [] && (forall r :: r in reports && r.OfExec? ==> r.p in s.running) ==>
              Step(s, Reap(reports)) == s.(reports := reports)
    ensures s.reports != [] ==> Step(s, Reap(reports)) == s
    ensures Step(s, Kill) == s.(disabled := s.disabled || s.boot.BootDone?)
  {
  }

  // ---- The pause over whole runs ----

  /** What the start of init answered to its moves, in order. */
  function BootMoves(acts: seq<Action>): seq<bool> {
    if acts == [] then []
    else
      var a, before := acts[|acts| - 1], BootMoves(acts[..|acts| - 1]);
      if a.GoBoot? then before + [a.ok] else before
  }

  function BootAfter(moves: seq<bool>): Boot {
    match |moves|
    case 0 => BootWaiting
    case 1 => BootHolding
    case 2 => if moves[1] then BootStarted else BootFailed
    case 3 => if moves[1] then BootSent else BootDead
    case _ => if moves[1] then BootDone else BootDead
  }

  /** The start section has made its third move, and its second one succeeded. */
  predicate Announced(acts: seq<Action>) {
    |BootMoves(acts)| >= 3 && BootMoves(acts)[1]
  }

  lemma {:induction false} RunAppend(s: State, acts: seq<Action>, a: Action)
    ensures Run(s, acts + [a]) == Step(Run(s, acts), a)
    decreases |acts|
  {
    if acts == [] {
      assert [a][1..] == [] && [] + [a] == [a];
    } else {
      assert (acts + [a])[1..] == acts[1..] + [a];
      RunAppend(Step(s, acts[0]), acts[1..], a);
    }
  }

  lemma RunLast(s: State, acts: seq<Action>)
    requires acts != []
    ensures Run(s, acts) == Step(Run(s, acts[..|acts| - 1]), acts[|acts| - 1])
  {
    var before, a := acts[..|acts| - 1], acts[|acts| - 1];
    assert before + [a] == acts;
    RunAppend(s, before, a);
  }

  /** Until init is started nobody else starts anything, so nothing holds up its section. */
  predicate Quiet(s: State) {
    !s.boot.BootDone? ==> s.starters == []
  }

  lemma BootMoveIsFree(s: State, ok: bool, moves: seq<bool>)
    requires Inv(s) && Quiet(s) && s.boot == BootAfter(moves)
    ensures BootStep(s, ok).boot == BootAfter(moves + [ok]) && Quiet(BootStep(s, ok))
  {
    assert |moves| > 1 ==> (moves + [ok])[1] == moves[1];
  }

  lemma OthersLeaveBoot(s: State, a: Action)
    requires Quiet(s) && !a.GoBoot?
    ensures Quiet(Step(s, a)) && Step(s, a).boot == s.boot
  {
  }

  lemma {:induction false} BootFollowsMoves(first: bool, acts: seq<Action>)
    ensures var s := Run(New(first), acts); Quiet(s) && s.boot == BootAfter(BootMoves(acts))
    decreases |acts|
  {
    if acts != [] {
      var before, a := acts[..|acts| - 1], acts[|acts| - 1];
      var s := Run(New(first), before);
      BootFollowsMoves(first, before);
      RunKeepsInv(New(first), before);
      RunLast(New(first), acts);
      if a.GoBoot? {
        BootMoveIsFree(s, a.ok, BootMoves(before));
      } else {
        OthersLeaveBoot(s, a);
      }
    }
  }

  /** In the channel some pause has no start before it. */
  ghost predicate Overtaken(c: seq<Event>, start: Event) {
    exists i :: 0 <= i < |c| && c[i] == TaskPaused && start !in c[..i]
  }

  lemma OvertakenGrows(c: seq<Event>, e: Event, start: Event)
    ensures Overtaken(c + [e], start) <==> Overtaken(c, start) || (e == TaskPaused && start !in c)
  {
    var d := c + [e];
    assert d[..|c|] == c && d[|c|] == e;
    assert forall i :: 0 <= i < |c| ==> d[i] == c[i] && d[..i] == c[..i];
    if Overtaken(d, start) {
      var i :| 0 <= i < |d| && d[i] == TaskPaused && start !in d[..i];
      assert i < |c| ==> c[i] == TaskPaused && start !in c[..i];
    }
    if Overtaken(c, start) {
      var i :| 0 <= i < |c| && c[i] == TaskPaused && start !in c[..i];
      assert d[i] == TaskPaused && start !in d[..i];
    }
  }

  /** Somewhere in the run the reaper reports the exit of init before the start section has made its third
      move, or after it has failed. */
  predicate ReportedEarly(first: bool, acts: seq<Action>) {
    acts != [] &&
    var before, a := acts[..|acts| - 1], acts[|acts| - 1];
    var s := Run(New(first), before);
    ReportedEarly(first, before)
    || (a.GoReport? && s.reports != [] && s.reports[0].OfInit? && !Announced(before))
  }

  /** The event that a step sends, if any. */
  function Sent(s: State, a: Action): seq<Event> {
    match a
    case GoStart(i, _) => if i < |s.starters| && s.starters[i].Started? then [ExecStarted(s.starters[i].p)] else []
    case GoBoot(_) => if s.boot.BootStarted? then [StartEvent(s)] else []
    case GoReport =>
      if s.reports == [] then []
      else if s.reports[0].OfInit? && !s.disabled then [TaskPaused]
      else if s.locked then []
      else if s.reports[0].OfInit? then [InitExit]
      else [Exit(s.reports[0].p)]
    case _ => []
  }

  lemma StepSends(s: State, a: Action)
    ensures Step(s, a).channel == s.channel + Sent(s, a)
  {
  }

  lemma StepOvertakes(s: State, a: Action)
    requires s.disabled ==> StartEvent(s) in s.channel
    ensures Overtaken(Step(s, a).channel, StartEvent(s))
            <==> Overtaken(s.channel, StartEvent(s))
                 || (a.GoReport? && s.reports != [] && s.reports[0].OfInit? && StartEvent(s) !in s.channel)
  {
    StepSends(s, a);
    if Sent(s, a) == [] {
      assert s.channel + [] == s.channel;
    } else {
      OvertakenGrows(s.channel, Sent(s, a)[0], StartEvent(s));
      assert Sent(s, a) == [Sent(s, a)[0]];
    }
  }

  lemma AnnouncedIsSent(first: bool, acts: seq<Action>)
    ensures var s := Run(New(first), acts);
            && (StartEvent(s) in s.channel <==> Announced(acts))
            && (s.disabled ==> StartEvent(s) in s.channel)
  {
    RunKeepsInv(New(first), acts);
    BootFollowsMoves(first, acts);
  }

  /** Over every run: a pause comes before the start in the channel exactly if the exit of init was
      reported before the third move of the start section, or after a start that failed. */
  lemma {:induction false} PauseOvertakesExactly(first: bool, acts: seq<Action>)
    ensures Overtaken(Run(New(first), acts).channel, StartEvent(New(first))) <==> ReportedEarly(first, acts)
    decreases |acts|
  {
    if acts != [] {
      var before, a := acts[..|acts| - 1], acts[|acts| - 1];
      PauseOvertakesExactly(first, before);
      RunKeepsInv(New(first), before);
      RunLast(New(first), acts);
      AnnouncedIsSent(first, before);
      StepOvertakes(Run(New(first), before), a);
    }
  }

  lemma RunFive(s: State, a: Action, b: Action, c: Action, d: Action, e: Action)
    ensures Run(s, [a, b, c, d, e]) == Step(Step(Step(Step(Step(s, a), b), c), d), e)
  {
    var t := Step(s, a);
    var u := Step(t, b);
    var v := Step(u, c);
    var w := Step(v, d);
    assert [e][1..] == [] && [d, e][1..] == [e] && [c, d, e][1..] == [d, e];
    assert [b, c, d, e][1..] == [c, d, e] && [a, b, c, d, e][1..] == [b, c, d, e];
    assert Run(w, [e]) == Step(w, e);
    assert Run(v, [d, e]) == Run(w, [e]);
    assert Run(u, [c, d, e]) == Run(v, [d, e]);
    assert Run(t, [b, c, d, e]) == Run(u, [c, d, e]);
    assert Run(s, [a, b, c, d, e]) == Run(t, [b, c, d, e]);
  }
}

/** The sender object: an event channel, modelled without its bound, and the lock that a start section
    keeps from PrepareSendL to Cancel. A caller that has to wait for the lock is told so, has changed
    nothing, and tries again. */
module EventSender {
  import opened Common
  import opened EventSpec

  /** Whose start section it is: a client's in Service.Start, or that of the shim's own start of init. */
  datatype Caller = Client(i: nat) | Init

  class EventSender {
    var locked: bool
    var events: seq<Event>
    ghost var first: bool
    ghost var running: set<Process>
    ghost var starters: seq<Starter>
    ghost var boot: Boot
    ghost var disabled: bool
    ghost var reports: seq<Report>

    ghost function State(): State
      reads this
    {
      EventSpec.State(first, locked, events, running, starters, boot, disabled, reports)
    }

    ghost predicate Prepared(caller: Caller)
      reads this
    {
      match caller
      case Client(i) => i < |starters| && starters[i].Waiting?
      case Init => boot.BootWaiting?
    }

    ghost predicate Finished(caller: Caller)
      reads this
    {
      match caller
      case Client(i) => i < |starters| && starters[i].Leaving?
      case Init => boot.BootSent? || boot.BootFailed?
    }

    ghost function Moves(caller: Caller, ok: bool): Action {
      match caller
      case Client(i) => GoStart(i, ok)
      case Init => GoBoot(ok)
    }

    constructor (ghost first: bool)
      ensures State() == New(first)
    {
      locked, events, this.first := false, [], first;
      running, starters, boot, disabled, reports := {}, [], BootWaiting, false, [];
    }

    /** The start section begins with the lock. */
    method PrepareSendL(ghost caller: Caller) returns (got: bool)
      requires Prepared(caller)
      modifies this
      ensures State() == Step(old(State()), Moves(caller, true)) && got == !old(locked)
      ensures locked && events == old(events)
    {
      if locked {
        return false;
      }
      locked := true;
      if caller.Client? {
        starters := starters[caller.i := Holding(starters[caller.i].p)];
      } else {
        boot := BootHolding;
      }
      return true;
    }

    method SendExecStart(ghost i: nat, p: Process)
      requires i < |starters| && starters[i] == Started(p)
      modifies this`events, this`starters
      ensures State() == Step(old(State()), GoStart(i, true))
      ensures events == old(events) + [ExecStarted(p)]
    {
      events := events + [ExecStarted(p)];
      starters := starters[i := Leaving];
    }

    /** The start of init announces the task's start, or its resumption after a restart of the shim. */
    method SendStartOfInit(firstStarted: bool)
      requires boot.BootStarted? && firstStarted == first
      modifies this`events, this`boot
      ensures State() == Step(old(State()), GoBoot(true))
      ensures events == old(events) + [if firstStarted then TaskStart else TaskResumed]
    {
      events := events + [if firstStarted then TaskStart else TaskResumed];
      boot := BootSent;
    }

    method Cancel(ghost caller: Caller)
      requires Finished(caller)
      modifies this
      ensures State() == Step(old(State()), Moves(caller, true))
      ensures !locked && events == old(events)
    {
      locked := false;
      if caller.Client? {
        starters := Remove(starters, caller.i);
      } else {
        boot := if boot.BootSent? then BootDone else BootDead;
      }
    }

    /** An exit takes the lock for one event, so it never falls into a start section. */
    method SendEventExit(e: Event) returns (sent: bool)
      requires reports != [] && (if reports[0].OfExec? then e == Exit(reports[0].p) else disabled && e == InitExit)
      modifies this
      ensures State() == Step(old(State()), GoReport) && sent == !old(locked)
      ensures events == old(events) + (if sent then [e] else []) && locked == old(locked)
    {
      if locked {
        return false;
      }
      locked := true;
      events := events + [e];
      locked := false;
      reports := reports[1..];
      return true;
    }

    /** The pause that stands for the exit of init asks for no lock. */
    method SendEventPaused()
      requires reports != [] && reports[0].OfInit? && !disabled
      modifies this`events, this`reports
      ensures State() == Step(old(State()), GoReport)
      ensures events == old(events) + [TaskPaused]
    {
      events := events + [TaskPaused];
      reports := reports[1..];
    }

    /** Service.Start of an exec, where ok is what container.Start answers. It takes the steps of one
        starter, or waits for the lock after the first of them. */
    method Start(p: Process, ok: bool) returns (answer: Option<bool>)
      requires boot.BootDone? && (p in running ==> !ok)
      modifies this
      ensures var n := |old(starters)|;
              State() == Run(old(State()), [Action.Start(p), GoStart(n, true), GoStart(n, ok),
                                            GoStart(n, true), GoStart(n, true)])
      ensures answer == if old(locked) then None else Some(ok)
      ensures events == old(events) + (if answer == Some(true) then [ExecStarted(p)] else [])
      ensures locked == old(locked)
    {
      ghost var n := |starters|;
      RunFive(State(), Action.Start(p), GoStart(n, true), GoStart(n, ok), GoStart(n, true), GoStart(n, true));
      starters := starters + [Waiting(p)];
      var got := PrepareSendL(Client(n));
      if !got {
        return None;
      }
      FinishStart(n, p, ok);
      return Some(ok);
    }

    /** The part of Start that runs with the lock. */
    method FinishStart(ghost n: nat, p: Process, ok: bool)
      requires n + 1 == |starters| && starters[n] == Holding(p) && (p in running ==> !ok)
      modifies this
      ensures State() == Step(Step(Step(old(State()), GoStart(n, ok)), GoStart(n, true)), GoStart(n, true))
      ensures events == old(events) + (if ok then [ExecStarted(p)] else []) && !locked
    {
      if ok {
        starters, running := starters[n := Started(p)], running + {p};
        SendExecStart(n, p);
      } else {
        starters := starters[n := Leaving];
      }
      Cancel(Client(n));
    }
  }
}
