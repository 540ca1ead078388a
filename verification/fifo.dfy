/** The self-restoring fifo as a protocol: a holder under one lock and the goroutines that open,
    reset and close fifos for it (tasklog/fifo.go). Every action is one critical section or one
    foreign call; an action that cannot happen leaves the state as it is. */
module FifoProtocol {
  import opened Common
  import opened Pools

  type Fifo = nat
  type Handle = nat

  /** Where a goroutine stands, with the descriptors only it can still close. */
  datatype Routine =
    | Resetting(fifo: Fifo, handle: Handle)   // about to close the failed fifo
    | HandleClosing(handle: Handle)           // about to close the failed fifo's handle
    | Remaking                                // about to make a new handle
    | Opening(handle: Handle)                 // in OpenFifo
    | OpenFailed(handle: Handle)              // about to close the handle and then the holder
    | GivingUp                                // about to close the holder
    | Opened(fifo: Fifo, handle: Handle)      // about to install the fifo
    | FinalClosing(fifo: Fifo)                // the close goroutine of unlockedClose

  datatype Trace = Wrote(fifo: Fifo) | HandedOut(fifo: Fifo)

  datatype State = State(
    closed: bool,
    fifo: Option<Fifo>,
    handle: Option<Handle>,
    routines: seq<Routine>,
    nextFifo: Fifo,
    nextHandle: Handle,
    fifoCloses: multiset<Fifo>,
    handleCloses: multiset<Handle>,
    trace: seq<Trace>)

  datatype Action = Write(failed: bool) | Close | Go(i: nat, ok: bool)

  /** newFifo: one handle made, one goroutine opening it. */
  const NEW := State(false, None, None, [Opening(0)], 0, 1, multiset{}, multiset{}, [])

  /** unlockedReset, after a write failed. */
  function Reset(s: State): State
    requires s.fifo.Some? && s.handle.Some?
  {
    s.(fifo := None,
       handle := None,
       routines := s.routines + [Resetting(s.fifo.value, s.handle.value)],
       trace := s.trace + [HandedOut(s.fifo.value)])
  }

  /** A holder has a handle whenever it has a fifo, so the last test only serves totality. */
  function AfterWrite(s: State, failed: bool): State {
    if s.closed || s.fifo.None? || s.handle.None? then s
    else
      var t := s.(trace := s.trace + [Wrote(s.fifo.value)]);
      if failed then Reset(t) else t
  }

  /** unlockedClose: it takes the fifo but leaves the handle where it is. */
  function AfterClose(s: State): State {
    if s.closed then s
    else if s.fifo.None? then s.(closed := true)
    else s.(closed := true,
            fifo := None,
            routines := s.routines + [FinalClosing(s.fifo.value)],
            trace := s.trace + [HandedOut(s.fifo.value)])
  }

  function CloseFifo(s: State, f: Fifo): State {
    s.(fifoCloses := s.fifoCloses + multiset{f})
  }

  function CloseHandle(s: State, h: Handle): State {
    s.(handleCloses := s.handleCloses + multiset{h})
  }

  function Become(s: State, i: nat, r: Routine): State
    requires i < |s.routines|
  {
    s.(routines := s.routines[i := r])
  }

  function Exit(s: State, i: nat): State
    requires i < |s.routines|
  {
    s.(routines := Remove(s.routines, i))
  }

  /** The critical section at the end of syncOpenFifo. */
  function Install(s: State, f: Fifo, h: Handle): State {
    if s.closed then CloseHandle(CloseFifo(s, f), h)
    else s.(fifo := Some(f), handle := Some(h))
  }

  /** The goroutine goes on after its step, in the same place of the pool. */
  predicate GoesOn(r: Routine) {
    !r.Opened? && !r.FinalClosing? && !r.GivingUp?
  }

  /** The foreign call of a goroutine that goes on; ok is what it answers. */
  function Worked(s: State, r: Routine, ok: bool): State
    requires GoesOn(r)
  {
    match r
    case Resetting(f, _) => CloseFifo(s, f)
    case Remaking => if ok then s.(nextHandle := s.nextHandle + 1) else s
    case Opening(_) => if ok then s.(nextFifo := s.nextFifo + 1) else s
    case HandleClosing(h) => CloseHandle(s, h)
    case OpenFailed(h) => CloseHandle(s, h)
  }

  function Next(s: State, r: Routine, ok: bool): Routine
    requires GoesOn(r)
  {
    match r
    case Resetting(_, h) => HandleClosing(h)
    case HandleClosing(_) => Remaking
    case Remaking => if ok then Opening(s.nextHandle) else GivingUp
    case Opening(h) => if ok then Opened(s.nextFifo, h) else OpenFailed(h)
    case OpenFailed(_) => GivingUp
  }

  /** The next step of goroutine i. */
  function Advance(s: State, i: nat, ok: bool): State
    requires i < |s.routines|
  {
    match s.routines[i]
    case GivingUp => AfterClose(Exit(s, i))
    case Opened(f, h) => Install(Exit(s, i), f, h)
    case FinalClosing(f) => Exit(CloseFifo(s, f), i)
    case r => Become(Worked(s, r, ok), i, Next(s, r, ok))
  }

  lemma InstallStep(s: State, i: nat, f: Fifo, h: Handle)
    requires i < |s.routines| && s.routines[i] == Opened(f, h)
    ensures Step(s, Go(i, true)) == Install(Exit(s, i), f, h)
  {
  }

  function Step(s: State, a: Action): State {
    match a
    case Write(failed) => AfterWrite(s, failed)
    case Close => AfterClose(s)
    case Go(i, ok) => if i < |s.routines| then Advance(s, i, ok) else s
  }

  function Run(s: State, acts: seq<Action>): State
    decreases |acts|
  {
    if acts == [] then s else Run(Step(s, acts[0]), acts[1..])
  }

  // ---- The invariant ----

  function Opener(): Routine -> nat {
    (r: Routine) => if r.FinalClosing? then 0 else 1
  }

  function HoldsFifo(f: Fifo): Routine -> nat {
    (r: Routine) => if (r.Resetting? || r.Opened? || r.FinalClosing?) && r.fifo == f then 1 else 0
  }

  function HoldsHandle(h: Handle): Routine -> nat {
    (r: Routine) =>
      if (r.Resetting? || r.HandleClosing? || r.Opening? || r.OpenFailed? || r.Opened?) && r.handle == h then 1 else 0
  }

  function Here(o: Option<nat>, x: nat): nat {
    if o == Some(x) then 1 else 0
  }

  function Openers(s: State): nat {
    Sum(s.routines, Opener())
  }

  function Installed(s: State): nat {
    if s.fifo.Some? then 1 else 0
  }

  /** Every opened fifo is in exactly one place: installed, in one goroutine, or closed once. */
  predicate FifoAccounted(s: State, f: Fifo) {
    Here(s.fifo, f) + Sum(s.routines, HoldsFifo(f)) + s.fifoCloses[f] == if f < s.nextFifo then 1 else 0
  }

  predicate HandleAccounted(s: State, h: Handle) {
    Here(s.handle, h) + Sum(s.routines, HoldsHandle(h)) + s.handleCloses[h] == if h < s.nextHandle then 1 else 0
  }

  function Waits(f: Fifo): Routine -> nat {
    (r: Routine) => if r.Opened? && r.fifo == f then 1 else 0
  }

  /** A fifo whose closing was handed out is not installed and will not be. */
  predicate Retired(s: State, f: Fifo) {
    s.fifo != Some(f) && Sum(s.routines, Waits(f)) == 0
  }

  /** No write reaches a fifo after its closing was handed out. */
  predicate WritesComeFirst(trace: seq<Trace>) {
    forall i, j :: 0 <= i < j < |trace| && trace[i].HandedOut? ==> trace[j] != Wrote(trace[i].fifo)
  }

  ghost predicate TraceInv(s: State) {
    && WritesComeFirst(s.trace)
    && (forall e :: e in s.trace ==> e.fifo < s.nextFifo)
    && (forall e :: e in s.trace && e.HandedOut? ==> Retired(s, e.fifo))
  }

  predicate HolderInv(s: State) {
    && Openers(s) + Installed(s) <= 1
    && (!s.closed ==> Openers(s) + Installed(s) == 1)
    && (s.closed ==> s.fifo.None?)
    && (s.fifo.Some? ==> s.handle.Some?)
    && (!s.closed && s.handle.Some? ==> s.fifo.Some?)
    && (s.closed && s.handle.Some? ==> Openers(s) == 0)
  }

  ghost predicate Inv(s: State) {
    && HolderInv(s)
    && (forall f: Fifo :: FifoAccounted(s, f))
    && (forall h: Handle :: HandleAccounted(s, h))
    && TraceInv(s)
  }

  // ---- The invariant is kept ----

  /** How a goroutine's step changes any weight of the pool. */
  lemma AdvanceSum(s: State, i: nat, ok: bool, w: Routine -> nat)
    requires i < |s.routines|
    ensures var t, r := Advance(s, i, ok), s.routines[i];
            && (r.Opened? || r.FinalClosing? ==> Sum(t.routines, w) + w(r) == Sum(s.routines, w))
            && (r.GivingUp? && (s.closed || s.fifo.None?) ==> Sum(t.routines, w) + w(r) == Sum(s.routines, w))
            && (GoesOn(r) ==> Sum(t.routines, w) + w(r) == Sum(s.routines, w) + w(Next(s, r, ok)))
  {
    var r := s.routines[i];
    if GoesOn(r) {
      SumReplace(s.routines, i, Next(s, r, ok), w);
    } else {
      SumRemove(s.routines, i, w);
    }
  }

  /** A goroutine in the pool counts towards its weight. */
  lemma Weighs(s: State, i: nat, w: Routine -> nat)
    requires i < |s.routines|
    ensures w(s.routines[i]) <= Sum(s.routines, w)
  {
    SumRemove(s.routines, i, w);
  }

  lemma HandOutSum(s: State, r: Routine, w: Routine -> nat)
    ensures Sum(s.routines + [r], w) == Sum(s.routines, w) + w(r)
  {
    SumAppend(s.routines, r, w);
  }

  lemma HandingOutKeepsHolder(s: State, a: Action)
    requires HolderInv(s) && !a.Go?
    ensures HolderInv(Step(s, a))
  {
    if s.fifo.Some? && s.handle.Some? {
      HandOutSum(s, Resetting(s.fifo.value, s.handle.value), Opener());
      HandOutSum(s, FinalClosing(s.fifo.value), Opener());
    }
  }

  lemma AdvanceKeepsHolder(s: State, i: nat, ok: bool)
    requires HolderInv(s) && i < |s.routines|
    ensures HolderInv(Advance(s, i, ok))
  {
    AdvanceSum(s, i, ok, Opener());
    Weighs(s, i, Opener());
  }

  lemma StepKeepsHolder(s: State, a: Action)
    requires HolderInv(s)
    ensures HolderInv(Step(s, a))
  {
    if !a.Go? {
      HandingOutKeepsHolder(s, a);
    } else if a.i < |s.routines| {
      AdvanceKeepsHolder(s, a.i, a.ok);
    }
  }

  /** While a goroutine reopens, no fifo is installed. */
  lemma OpenerIsAlone(s: State, i: nat)
    requires HolderInv(s) && i < |s.routines| && !s.routines[i].FinalClosing?
    ensures s.fifo.None?
  {
    Weighs(s, i, Opener());
  }

  /** What one goroutine's work does to the places of f. */
  lemma WorkMovesFifo(s: State, r: Routine, ok: bool, f: Fifo)
    requires GoesOn(r)
    ensures var t := Worked(s, r, ok);
            && s.nextFifo <= t.nextFifo <= s.nextFifo + 1
            && HoldsFifo(f)(Next(s, r, ok)) + t.fifoCloses[f]
               == HoldsFifo(f)(r) + s.fifoCloses[f] + (if s.nextFifo <= f < t.nextFifo then 1 else 0)
  {
    match r
    case Resetting(g, _) => assert (s.fifoCloses + multiset{g})[f] == s.fifoCloses[f] + (if f == g then 1 else 0);
    case Remaking =>
    case Opening(_) =>
    case HandleClosing(_) =>
    case OpenFailed(_) =>
  }

  lemma GoingOnKeepsFifo(s: State, i: nat, ok: bool, f: Fifo)
    requires FifoAccounted(s, f) && i < |s.routines| && GoesOn(s.routines[i])
    ensures FifoAccounted(Advance(s, i, ok), f)
  {
    AdvanceSum(s, i, ok, HoldsFifo(f));
    WorkMovesFifo(s, s.routines[i], ok, f);
  }

  lemma EndingKeepsFifo(s: State, i: nat, ok: bool, f: Fifo)
    requires FifoAccounted(s, f) && i < |s.routines| && !GoesOn(s.routines[i])
    requires s.fifo.None? || s.routines[i].FinalClosing?
    ensures FifoAccounted(Advance(s, i, ok), f)
  {
    AdvanceSum(s, i, ok, HoldsFifo(f));
  }

  lemma AdvanceKeepsFifo(s: State, i: nat, ok: bool, f: Fifo)
    requires HolderInv(s) && FifoAccounted(s, f) && i < |s.routines|
    ensures FifoAccounted(Advance(s, i, ok), f)
  {
    if GoesOn(s.routines[i]) {
      GoingOnKeepsFifo(s, i, ok, f);
    } else {
      if !s.routines[i].FinalClosing? {
        OpenerIsAlone(s, i);
      }
      EndingKeepsFifo(s, i, ok, f);
    }
  }

  lemma StepKeepsFifo(s: State, a: Action, f: Fifo)
    requires HolderInv(s) && FifoAccounted(s, f)
    ensures FifoAccounted(Step(s, a), f)
  {
    if a.Go? {
      if a.i < |s.routines| {
        AdvanceKeepsFifo(s, a.i, a.ok, f);
      }
    } else if s.fifo.Some? && s.handle.Some? {
      HandOutSum(s, Resetting(s.fifo.value, s.handle.value), HoldsFifo(f));
      HandOutSum(s, FinalClosing(s.fifo.value), HoldsFifo(f));
    }
  }

  lemma WorkMovesHandle(s: State, r: Routine, ok: bool, h: Handle)
    requires GoesOn(r)
    ensures var t := Worked(s, r, ok);
            && s.nextHandle <= t.nextHandle <= s.nextHandle + 1
            && HoldsHandle(h)(Next(s, r, ok)) + t.handleCloses[h]
               == HoldsHandle(h)(r) + s.handleCloses[h] + (if s.nextHandle <= h < t.nextHandle then 1 else 0)
  {
    match r
    case Resetting(_, _) =>
    case Remaking =>
    case Opening(_) =>
    case HandleClosing(g) => assert (s.handleCloses + multiset{g})[h] == s.handleCloses[h] + (if g == h then 1 else 0);
    case OpenFailed(g) => assert (s.handleCloses + multiset{g})[h] == s.handleCloses[h] + (if g == h then 1 else 0);
  }

  lemma GoingOnKeepsHandle(s: State, i: nat, ok: bool, h: Handle)
    requires HandleAccounted(s, h) && i < |s.routines| && GoesOn(s.routines[i])
    ensures HandleAccounted(Advance(s, i, ok), h)
  {
    AdvanceSum(s, i, ok, HoldsHandle(h));
    WorkMovesHandle(s, s.routines[i], ok, h);
  }

  lemma EndingKeepsHandle(s: State, i: nat, ok: bool, h: Handle)
    requires HolderInv(s) && HandleAccounted(s, h) && i < |s.routines| && !GoesOn(s.routines[i])
    requires s.fifo.None? || s.routines[i].FinalClosing?
    ensures HandleAccounted(Advance(s, i, ok), h)
  {
    AdvanceSum(s, i, ok, HoldsHandle(h));
  }

  lemma AdvanceKeepsHandle(s: State, i: nat, ok: bool, h: Handle)
    requires HolderInv(s) && HandleAccounted(s, h) && i < |s.routines|
    ensures HandleAccounted(Advance(s, i, ok), h)
  {
    if GoesOn(s.routines[i]) {
      GoingOnKeepsHandle(s, i, ok, h);
    } else {
      if !s.routines[i].FinalClosing? {
        OpenerIsAlone(s, i);
      }
      EndingKeepsHandle(s, i, ok, h);
    }
  }

  lemma StepKeepsHandle(s: State, a: Action, h: Handle)
    requires HolderInv(s) && HandleAccounted(s, h)
    ensures HandleAccounted(Step(s, a), h)
  {
    if a.Go? {
      if a.i < |s.routines| {
        AdvanceKeepsHandle(s, a.i, a.ok, h);
      }
    } else if s.fifo.Some? && s.handle.Some? {
      HandOutSum(s, Resetting(s.fifo.value, s.handle.value), HoldsHandle(h));
      HandOutSum(s, FinalClosing(s.fifo.value), HoldsHandle(h));
    }
  }

  lemma AdvanceKeepsRetired(s: State, i: nat, ok: bool, f: Fifo)
    requires HolderInv(s) && Retired(s, f) && f < s.nextFifo && i < |s.routines|
    ensures Retired(Advance(s, i, ok), f)
  {
    AdvanceSum(s, i, ok, Waits(f));
    Weighs(s, i, Waits(f));
    Weighs(s, i, Opener());
  }

  /** A retired fifo stays retired. */
  lemma StepKeepsRetired(s: State, a: Action, f: Fifo)
    requires HolderInv(s) && Retired(s, f) && f < s.nextFifo
    ensures Retired(Step(s, a), f)
  {
    if a.Go? {
      if a.i < |s.routines| {
        AdvanceKeepsRetired(s, a.i, a.ok, f);
      }
    } else if s.fifo.Some? && s.handle.Some? {
      HandOutSum(s, Resetting(s.fifo.value, s.handle.value), Waits(f));
      HandOutSum(s, FinalClosing(s.fifo.value), Waits(f));
    }
  }

  /** The installed fifo is in no goroutine's hands. */
  lemma {:induction false} WaitsIsHolding(rs: seq<Routine>, f: Fifo)
    ensures Sum(rs, Waits(f)) <= Sum(rs, HoldsFifo(f))
  {
    if rs != [] {
      WaitsIsHolding(rs[1..], f);
    }
  }

  lemma HandingOutKeepsTrace(s: State, t: State)
    requires Inv(s) && HolderInv(t) && s.fifo.Some? && t.fifo.None? && t.nextFifo == s.nextFifo
    requires t.trace == s.trace + [HandedOut(s.fifo.value)]
          || t.trace == s.trace + [Wrote(s.fifo.value), HandedOut(s.fifo.value)]
    requires forall f: Fifo :: Sum(t.routines, Waits(f)) == Sum(s.routines, Waits(f))
    ensures TraceInv(t)
  {
    var f := s.fifo.value;
    assert FifoAccounted(s, f);
    WaitsIsHolding(s.routines, f);
    forall e | e in t.trace ensures e.fifo < t.nextFifo && (e.HandedOut? ==> Retired(t, e.fifo)) {
      assert e in s.trace || e == HandedOut(f) || e == Wrote(f);
    }
    assert HandedOut(f) !in s.trace;
  }

  lemma WroteKeepsTrace(s: State)
    requires Inv(s) && s.fifo.Some?
    ensures TraceInv(s.(trace := s.trace + [Wrote(s.fifo.value)]))
  {
    var f, t := s.fifo.value, s.(trace := s.trace + [Wrote(s.fifo.value)]);
    assert FifoAccounted(s, f);
    forall e | e in t.trace ensures e.fifo < t.nextFifo && (e.HandedOut? ==> Retired(t, e.fifo)) {
      assert e in s.trace || e == Wrote(f);
    }
    assert HandedOut(f) !in s.trace;
  }

  lemma StepKeepsTrace(s: State, a: Action)
    requires Inv(s)
    ensures TraceInv(Step(s, a))
  {
    var t := Step(s, a);
    StepKeepsHolder(s, a);
    if s.closed || s.fifo.None? || a.Go? {
      GoKeepsTrace(s, a);
    } else if a == Write(false) {
      WroteKeepsTrace(s);
    } else {
      var f := s.fifo.value;
      forall g: Fifo ensures Sum(t.routines, Waits(g)) == Sum(s.routines, Waits(g)) {
        HandOutSum(s, if a.Close? then FinalClosing(f) else Resetting(f, s.handle.value), Waits(g));
      }
      assert a.Write? ==> t.trace == s.trace + [Wrote(f), HandedOut(f)];
      HandingOutKeepsTrace(s, t);
    }
  }

  lemma GoLeavesTrace(s: State, a: Action)
    requires HolderInv(s) && (s.closed || s.fifo.None? || a.Go?)
    ensures var t := Step(s, a); t.trace == s.trace && s.nextFifo <= t.nextFifo
  {
    if a.Go? && a.i < |s.routines| && !s.routines[a.i].FinalClosing? {
      OpenerIsAlone(s, a.i);
    }
  }

  lemma GoKeepsTrace(s: State, a: Action)
    requires HolderInv(s) && TraceInv(s) && (s.closed || s.fifo.None? || a.Go?)
    ensures TraceInv(Step(s, a))
  {
    GoLeavesTrace(s, a);
    forall e | e in s.trace && e.HandedOut? ensures Retired(Step(s, a), e.fifo) {
      StepKeepsRetired(s, a, e.fifo);
    }
  }

  lemma StepKeepsInv(s: State, a: Action)
    requires Inv(s)
    ensures Inv(Step(s, a))
  {
    StepKeepsHolder(s, a);
    StepKeepsTrace(s, a);
    var t := Step(s, a);
    forall f: Fifo ensures FifoAccounted(t, f) {
      assert FifoAccounted(s, f);
      StepKeepsFifo(s, a, f);
    }
    forall h: Handle ensures HandleAccounted(t, h) {
      assert HandleAccounted(s, h);
      StepKeepsHandle(s, a, h);
    }
  }

  lemma {:induction false} RunKeepsInv(s: State, acts: seq<Action>)
    requires Inv(s)
    ensures Inv(Run(s, acts))
    decreases |acts|
  {
    if acts != [] {
      StepKeepsInv(s, acts[0]);
      RunKeepsInv(Step(s, acts[0]), acts[1..]);
    }
  }

  // ---- Main results, over every interleaving ----

  /** Until the holder is closed there is exactly one fifo: installed, or on its way in one
      goroutine. Afterwards none is installed and at most one goroutine is still opening. */
  lemma OneFifoOrOneOpener(acts: seq<Action>)
    ensures var s := Run(NEW, acts);
            && (!s.closed ==> Openers(s) + Installed(s) == 1)
            && (s.closed ==> Installed(s) == 0 && Openers(s) <= 1)
  {
    NewIsInv();
    RunKeepsInv(NEW, acts);
  }

  lemma NewIsInv()
    ensures Inv(NEW)
  {
    assert NEW.routines[1..] == [];
    forall f: Fifo ensures FifoAccounted(NEW, f) {
      assert Sum(NEW.routines, HoldsFifo(f)) == 0;
    }
    forall h: Handle ensures HandleAccounted(NEW, h) {
      assert Sum(NEW.routines, HoldsHandle(h)) == if h == 0 then 1 else 0;
    }
  }

  lemma {:induction false} ClosedIsForever(s: State, acts: seq<Action>)
    requires s.closed && s.fifo.None?
    ensures var t := Run(s, acts); t.closed && t.fifo.None? && t.handle == s.handle
    decreases |acts|
  {
    if acts != [] {
      ClosedIsForever(Step(s, acts[0]), acts[1..]);
    }
  }

  /** No fifo is closed twice, only opened ones are, and none is written after its closing was handed out. */
  lemma FifosCloseOnceAfterWrites(acts: seq<Action>)
    ensures var s := Run(NEW, acts);
            && (forall f: Fifo :: s.fifoCloses[f] <= if f < s.nextFifo then 1 else 0)
            && WritesComeFirst(s.trace)
  {
    NewIsInv();
    RunKeepsInv(NEW, acts);
    var s := Run(NEW, acts);
    forall f: Fifo ensures s.fifoCloses[f] <= if f < s.nextFifo then 1 else 0 {
      assert FifoAccounted(s, f);
    }
  }

  /** Once the holder is closed and no goroutine is left, every opened fifo was closed exactly once. */
  lemma QuietHolderClosedEveryFifo(acts: seq<Action>)
    requires var s := Run(NEW, acts); s.closed && s.routines == []
    ensures var s := Run(NEW, acts); forall f: Fifo :: f < s.nextFifo ==> s.fifoCloses[f] == 1
  {
    NewIsInv();
    RunKeepsInv(NEW, acts);
    var s := Run(NEW, acts);
    forall f: Fifo | f < s.nextFifo ensures s.fifoCloses[f] == 1 {
      assert FifoAccounted(s, f);
    }
  }

  lemma ClosingStep(s: State, a: Action)
    requires Inv(s) && !s.closed && Step(s, a).closed
    ensures var t := Step(s, a); t.fifo.None? && t.handle == s.handle && (a.Go? ==> s.fifo.None?)
  {
    if a.Go? {
      OpenerIsAlone(s, a.i);
    }
  }

  // ---- What each operation does ----

  /** A write that fails takes fifo and handle away from the holder and starts the goroutine that resets
      them; nothing else happens. */
  lemma FailedWriteResets(acts: seq<Action>)
    requires Run(NEW, acts).fifo.Some?
    ensures var s := Run(NEW, acts);
            s.handle.Some? &&
            var f, h := s.fifo.value, s.handle.value;
            Step(s, Write(true)) == s.(fifo := None,
                                       handle := None,
                                       routines := s.routines + [Resetting(f, h)],
                                       trace := s.trace + [Wrote(f), HandedOut(f)])
  {
    NewIsInv();
    RunKeepsInv(NEW, acts);
    var s := Run(NEW, acts);
    var f := s.fifo.value;
    assert (s.trace + [Wrote(f)]) + [HandedOut(f)] == s.trace + [Wrote(f), HandedOut(f)];
  }

  /** A write that succeeds only writes, and one that finds no fifo does nothing at all. */
  lemma OtherWritesChangeNothing(acts: seq<Action>, failed: bool)
    ensures var s := Run(NEW, acts);
            && (s.fifo.Some? ==> Step(s, Write(false)) == s.(trace := s.trace + [Wrote(s.fifo.value)]))
            && (s.fifo.None? ==> Step(s, Write(failed)) == s)
  {
    NewIsInv();
    RunKeepsInv(NEW, acts);
  }

  lemma StepExtendsTrace(s: State, a: Action)
    ensures s.trace <= Step(s, a).trace
  {
  }

  lemma {:induction false} RunExtendsTrace(s: State, acts: seq<Action>)
    ensures s.trace <= Run(s, acts).trace
    decreases |acts|
  {
    if acts != [] {
      StepExtendsTrace(s, acts[0]);
      RunExtendsTrace(Step(s, acts[0]), acts[1..]);
    }
  }

  lemma {:induction false} RunConcat(s: State, a: seq<Action>, b: seq<Action>)
    ensures Run(s, a + b) == Run(Run(s, a), b)
    decreases |a|
  {
    if a == [] {
      assert a + b == b;
    } else {
      assert (a + b)[1..] == a[1..] + b;
      RunConcat(Step(s, a[0]), a[1..], b);
    }
  }

  lemma StepIsRun(acts: seq<Action>, a: Action, after: seq<Action>)
    ensures Run(Step(Run(NEW, acts), a), after) == Run(NEW, acts + [a] + after)
  {
    RunConcat(NEW, acts + [a], after);
    RunConcat(NEW, acts, [a]);
    assert [a][1..] == [];
  }

  /** Over runs: once a write to a fifo has failed, nothing is written to it any more. */
  lemma FailedFifoIsLeftAlone(before: seq<Action>, after: seq<Action>, j: nat)
    requires Run(NEW, before).fifo.Some?
    requires |Run(NEW, before).trace| < j < |Run(Step(Run(NEW, before), Write(true)), after).trace|
    ensures Run(Step(Run(NEW, before), Write(true)), after).trace[j] != Wrote(Run(NEW, before).fifo.value)
  {
    var s := Run(NEW, before);
    FailedWriteResets(before);
    var t := Step(s, Write(true));
    RunExtendsTrace(t, after);
    StepIsRun(before, Write(true), after);
    FifosCloseOnceAfterWrites(before + [Write(true)] + after);
    assert t.trace[|s.trace| + 1] == HandedOut(s.fifo.value);
  }

  /** The last goroutine of the pool goes on. */
  lemma LastGoesOn(s: State, pool: seq<Routine>, r: Routine, ok: bool)
    requires s.routines == pool + [r] && GoesOn(r)
    ensures Step(s, Go(|pool|, ok)) == Worked(s, r, ok).(routines := pool + [Next(s, r, ok)])
  {
    assert (pool + [r])[|pool| := Next(s, r, ok)] == pool + [Next(s, r, ok)];
  }

  lemma LastEnds(s: State, pool: seq<Routine>, r: Routine)
    requires s.routines == pool + [r]
    ensures Exit(s, |pool|) == s.(routines := pool)
  {
    assert Remove(pool + [r], |pool|) == pool;
  }

  lemma RunFive(s: State, a: Action)
    ensures Run(s, [a, a, a, a, a]) == Step(Step(Step(Step(Step(s, a), a), a), a), a)
  {
    var t := Step(Step(s, a), a);
    assert [a][1..] == [] && [a, a][1..] == [a] && [a, a, a][1..] == [a, a];
    assert [a, a, a, a][1..] == [a, a, a] && [a, a, a, a, a][1..] == [a, a, a, a];
    assert Run(Step(t, a), [a, a]) == Run(Step(Step(t, a), a), [a]);
    assert Run(Step(s, a), [a, a, a, a]) == Run(t, [a, a, a]);
  }

  lemma ClosingMoves(s: State, pool: seq<Routine>, f: Fifo, h: Handle)
    requires s.routines == pool + [Resetting(f, h)]
    ensures var go := Go(|pool|, true);
            Step(Step(s, go), go) == s.(fifoCloses := s.fifoCloses + multiset{f},
                                        handleCloses := s.handleCloses + multiset{h},
                                        routines := pool + [Remaking])
  {
    LastGoesOn(s, pool, Resetting(f, h), true);
    LastGoesOn(Step(s, Go(|pool|, true)), pool, HandleClosing(h), true);
  }

  lemma OpeningMoves(s: State, pool: seq<Routine>)
    requires s.routines == pool + [Remaking] && !s.closed
    ensures var go := Go(|pool|, true);
            Step(Step(Step(s, go), go), go) == s.(fifo := Some(s.nextFifo), nextFifo := s.nextFifo + 1,
                                                  handle := Some(s.nextHandle), nextHandle := s.nextHandle + 1,
                                                  routines := pool)
  {
    var go := Go(|pool|, true);
    LastGoesOn(s, pool, Remaking, true);
    var t := Step(s, go);
    LastGoesOn(t, pool, Opening(s.nextHandle), true);
    LastEnds(Step(t, go), pool, Opened(s.nextFifo, s.nextHandle));
  }

  /** After a failed write five moves of the goroutine it started, all successful, close the old fifo and
      its handle and put a fresh fifo in place, opened by a fresh handle. */
  lemma ResetReopens(before: seq<Action>)
    requires Run(NEW, before).fifo.Some?
    ensures var s := Run(NEW, before);
            var go := Go(|s.routines|, true);
            s.handle.Some? &&
            var f, h := s.fifo.value, s.handle.value;
            Run(Step(s, Write(true)), [go, go, go, go, go])
            == s.(fifo := Some(s.nextFifo), nextFifo := s.nextFifo + 1, fifoCloses := s.fifoCloses + multiset{f},
                  handle := Some(s.nextHandle), nextHandle := s.nextHandle + 1,
                  handleCloses := s.handleCloses + multiset{h},
                  trace := s.trace + [Wrote(f), HandedOut(f)])
  {
    NewIsInv();
    RunKeepsInv(NEW, before);
    var s := Run(NEW, before);
    var pool, go := s.routines, Go(|s.routines|, true);
    FailedWriteResets(before);
    var t := Step(s, Write(true));
    RunFive(t, go);
    ClosingMoves(t, pool, s.fifo.value, s.handle.value);
    OpeningMoves(Step(Step(t, go), go), pool);
  }

  /** A goroutine that cannot open or make a handle closes the holder and leaves no handle of its own. */
  lemma FailedOpenCloses(s: State, pool: seq<Routine>, h: Handle)
    requires s.routines == pool + [Opening(h)] && s.fifo.None?
    ensures var go := Go(|pool|, false);
            Step(Step(Step(s, go), go), go)
            == s.(closed := true, routines := pool, handleCloses := s.handleCloses + multiset{h})
  {
    var go := Go(|pool|, false);
    LastGoesOn(s, pool, Opening(h), false);
    var t := Step(s, go);
    LastGoesOn(t, pool, OpenFailed(h), false);
    LastEnds(Step(t, go), pool, GivingUp);
  }

  lemma FailedRemakeCloses(s: State, pool: seq<Routine>)
    requires s.routines == pool + [Remaking] && s.fifo.None?
    ensures Step(Step(s, Go(|pool|, false)), Go(|pool|, false)) == s.(closed := true, routines := pool)
  {
    LastGoesOn(s, pool, Remaking, false);
    LastEnds(Step(s, Go(|pool|, false)), pool, GivingUp);
  }

  /** The first Close closes the holder and hands out its fifo, and no later one does anything. */
  lemma CloseHandsOut(s: State)
    ensures var t := Step(s, Close);
            && t.closed && t.handle == s.handle
            && (s.closed ==> t == s)
            && (!s.closed ==> t.fifo.None?)
            && (!s.closed && s.fifo.Some? ==>
                  && t.routines == s.routines + [FinalClosing(s.fifo.value)]
                  && t.trace == s.trace + [HandedOut(s.fifo.value)])
            && (!s.closed && s.fifo.None? ==> t.routines == s.routines && t.trace == s.trace)
  {
  }

  /** The handles fare worse. Whatever step closes the holder, a Close from outside or a goroutine that
      gives up: all handles end up closed exactly when no fifo was installed at that moment, because Close
      hands out the fifo and forgets its handle. A goroutine that gives up never finds one installed. */
  lemma HandlesAllClosedExactly(before: seq<Action>, a: Action, after: seq<Action>)
    requires var s := Run(NEW, before); !s.closed && Step(s, a).closed && Run(Step(s, a), after).routines == []
    ensures var s := Run(NEW, before);
            var t := Run(Step(s, a), after);
            && ((forall h: Handle :: h < t.nextHandle ==> t.handleCloses[h] == 1) <==> s.fifo.None?)
            && (a.Go? ==> s.fifo.None?)
  {
    NewIsInv();
    RunKeepsInv(NEW, before);
    var s := Run(NEW, before);
    StepKeepsInv(s, a);
    ClosingStep(s, a);
    RunKeepsInv(Step(s, a), after);
    ClosedIsForever(Step(s, a), after);
    HandlesAccounted(Run(Step(s, a), after));
  }

  /** With no goroutine left, every handle but the holder's own is closed. */
  lemma HandlesAccounted(t: State)
    requires Inv(t) && t.routines == []
    ensures (forall h: Handle :: h < t.nextHandle ==> t.handleCloses[h] == 1) <==> t.handle.None?
  {
    forall h: Handle ensures t.handleCloses[h] + Here(t.handle, h) == if h < t.nextHandle then 1 else 0 {
      assert HandleAccounted(t, h);
    }
    if t.handle.Some? {
      assert Here(t.handle, t.handle.value) == 1;
      assert t.handle.value < t.nextHandle && t.handleCloses[t.handle.value] == 0;
    }
  }

  /** It takes no more than one opened fifo: at the end its handle is open, and nobody is left to close it. */
  lemma HandleLeaks()
    ensures var s := Step(Step(NEW, Go(0, true)), Go(0, true));
            var t := Step(AfterClose(s), Go(0, true));
            !s.closed && t.routines == [] && t.nextHandle == 1 && t.handleCloses[0] == 0
  {
    var s := Step(Step(NEW, Go(0, true)), Go(0, true));
    assert s.routines == [] && AfterClose(s).routines == [FinalClosing(0)];
  }

  /** The steps a goroutine can still take once the holder is closed. */
  function Rank(): Routine -> nat {
    (r: Routine) =>
      match r
      case Resetting(_, _) => 6
      case HandleClosing(_) => 5
      case Remaking => 4
      case Opening(_) => 3
      case OpenFailed(_) => 2
      case _ => 1
  }

  /** Every action moves a goroutine. */
  predicate AllMove(s: State, acts: seq<Action>)
    decreases |acts|
  {
    acts != [] ==> acts[0].Go? && acts[0].i < |s.routines| && AllMove(Step(s, acts[0]), acts[1..])
  }

  lemma ClosedStepLowersRank(s: State, i: nat, ok: bool)
    requires s.closed && s.fifo.None? && i < |s.routines|
    ensures var t := Advance(s, i, ok); t.closed && t.fifo.None? && Sum(t.routines, Rank()) < Sum(s.routines, Rank())
  {
    AdvanceSum(s, i, ok, Rank());
  }

  /** A closed holder winds down: its goroutines run out of steps, so by the lemmas above its
      fifos all end up closed. */
  lemma {:induction false} ClosedHolderWindsDown(s: State, acts: seq<Action>)
    requires s.closed && s.fifo.None? && AllMove(s, acts)
    ensures |acts| + Sum(Run(s, acts).routines, Rank()) <= Sum(s.routines, Rank())
    decreases |acts|
  {
    if acts != [] {
      ClosedStepLowersRank(s, acts[0].i, acts[0].ok);
      ClosedHolderWindsDown(Step(s, acts[0]), acts[1..]);
    }
  }
}

/** The holder's own fields and critical sections. */
module FifoHolder {
  import opened Common
  import P = FifoProtocol
  import opened LogSpec

  class FifoHolder {
    var closed: bool
    var fifo: Option<P.Fifo>
    var handle: Option<P.Handle>
    var signalChs: seq<nat>
    ghost var routines: seq<P.Routine>
    ghost var nextFifo: nat
    ghost var nextHandle: nat
    ghost var fifoCloses: multiset<nat>
    ghost var handleCloses: multiset<nat>
    ghost var trace: seq<P.Trace>
    ghost var signals: seq<nat>        // the channels sent on, in order
    ghost var channelCloses: seq<nat>  // the channels closed, in order

    ghost function State(): P.State
      reads this
    {
      P.State(closed, fifo, handle, routines, nextFifo, nextHandle, fifoCloses, handleCloses, trace)
    }

    /** newFifo, once its first handle is made. */
    constructor ()
      ensures State() == P.NEW && signalChs == signals == channelCloses == []
    {
      closed, fifo, handle := false, None, None;
      routines, nextFifo, nextHandle := [P.Opening(0)], 0, 1;
      fifoCloses, handleCloses, trace := multiset{}, multiset{}, [];
      signalChs, signals, channelCloses := [], [], [];
    }

    /** A channel that comes after the fifo gets its signal from a goroutine of its own. One that comes
        after the close is never closed. */
    method Signal(ch: nat) returns (late: bool)
      modifies this`signalChs
      ensures signalChs == old(signalChs) + [ch] && late == fifo.Some?
    {
      signalChs := signalChs + [ch];
      return fifo.Some?;
    }

    /** One write, of which the open fifo would take n bytes before it fails. The answer is the one
        the buffered log sees: a reset follows exactly the failures it is told about. */
    method Write(n: nat, failed: bool) returns (o: Outcome)
      requires fifo.Some? ==> handle.Some?
      modifies this
      ensures State() == P.Step(old(State()), P.Write(failed))
      ensures unchanged(`signalChs, `signals, `channelCloses)
      ensures o == if old(closed) then Refused else if old(fifo).None? then NotOpened
                   else if failed then Failed(n) else Wrote
      ensures o.Failed? ==>
        && fifo.None? && handle.None?
        && routines == old(routines) + [P.Resetting(old(fifo).value, old(handle).value)]
      ensures !o.Failed? ==> fifo == old(fifo) && handle == old(handle) && routines == old(routines)
      ensures trace == old(trace) + (if o.Wrote? then [P.Wrote(old(fifo).value)]
                                     else if o.Failed? then [P.Wrote(old(fifo).value), P.HandedOut(old(fifo).value)]
                                     else [])
    {
      if closed {
        return Refused;
      }
      if fifo.None? {
        return NotOpened;
      }
      trace := trace + [P.Wrote(fifo.value)];
      if failed {
        UnlockedReset();
        return Failed(n);
      }
      return Wrote;
    }

    method UnlockedReset()
      requires fifo.Some? && handle.Some?
      modifies this
      ensures State() == P.Reset(old(State()))
      ensures unchanged(`signalChs, `signals, `channelCloses)
    {
      var f, h := fifo.value, handle.value;
      fifo, handle := None, None;
      trace := trace + [P.HandedOut(f)];
      routines := routines + [P.Resetting(f, h)];
    }

    method Close()
      modifies this
      ensures State() == P.Step(old(State()), P.Close)
      ensures signalChs == old(signalChs) && signals == old(signals)
      ensures channelCloses == old(channelCloses) + (if old(closed) then [] else signalChs)
    {
      UnlockedClose();
    }

    /** Every channel registered so far is closed, at the first close and no later one. */
    method UnlockedClose()
      modifies this
      ensures State() == P.AfterClose(old(State()))
      ensures closed && fifo == (if old(closed) then old(fifo) else None) && handle == old(handle)
      ensures routines == old(routines)
                          + (if old(closed) || old(fifo).None? then [] else [P.FinalClosing(old(fifo).value)])
      ensures signalChs == old(signalChs) && signals == old(signals)
      ensures channelCloses == old(channelCloses) + (if old(closed) then [] else signalChs)
    {
      if closed {
        return;
      }
      TakeFifo();
      CloseChannels();
    }

    method TakeFifo()
      requires !closed
      modifies this`closed, this`fifo, this`trace, this`routines
      ensures State() == P.AfterClose(old(State()))
      ensures closed && fifo.None?
      ensures routines == old(routines) + (if old(fifo).None? then [] else [P.FinalClosing(old(fifo).value)])
    {
      closed := true;
      var f := fifo;
      fifo := None;
      if f.Some? {
        trace := trace + [P.HandedOut(f.value)];
        routines := routines + [P.FinalClosing(f.value)];
      }
    }

    method CloseChannels()
      modifies this`channelCloses
      ensures channelCloses == old(channelCloses) + signalChs
    {
      for i := 0 to |signalChs|
        invariant channelCloses == old(channelCloses) + signalChs[..i]
      {
        channelCloses := channelCloses + [signalChs[i]];
      }
    }

    method SendSignals()
      modifies this`signals
      ensures signals == old(signals) + signalChs
    {
      for i := 0 to |signalChs|
        invariant signals == old(signals) + signalChs[..i]
      {
        signals := signals + [signalChs[i]];
      }
    }

    /** The critical section of syncOpenFifo in goroutine i, with the fifo f it opened by h. */
    method SyncOpenFifo(ghost i: nat, f: P.Fifo, h: P.Handle)
      requires i < |routines| && routines[i] == P.Opened(f, h)
      modifies this
      ensures State() == P.Step(old(State()), P.Go(i, true))
      ensures signalChs == old(signalChs) && channelCloses == old(channelCloses)
      ensures signals == old(signals) + (if closed then [] else signalChs)
    {
      P.InstallStep(State(), i, f, h);
      routines := Remove(routines, i);
      Install(f, h);
    }

    method Install(f: P.Fifo, h: P.Handle)
      modifies this
      ensures State() == P.Install(old(State()), f, h)
      ensures !closed ==> fifo == Some(f) && handle == Some(h)
      ensures closed ==> fifo == old(fifo) && handle == old(handle)
      ensures closed ==> fifoCloses == old(fifoCloses) + multiset{f} && handleCloses == old(handleCloses) + multiset{h}
      ensures signalChs == old(signalChs) && channelCloses == old(channelCloses)
      ensures signals == old(signals) + (if closed then [] else signalChs)
    {
      if closed {
        fifoCloses := fifoCloses + multiset{f};
        handleCloses := handleCloses + multiset{h};
        return;
      }
      handle := Some(h);
      fifo := Some(f);
      SendSignals();
    }
  }
}
