/** The container holder's reader-writer lock as waiting clients meet it (shim/ctnholder.go,
    shim/service.go, shim/shim.go). Service.Wait keeps the read lock until init has exited; the reaper
    needs the read lock to report that exit; and a goroutine that asks for the write lock keeps new readers
    out until it had it. The shim has started its container. */
module WaitLocks {
  /** Service.Delete of the container, the background cleanup, and IsDeleted in Service.Shutdown. */
  datatype Who = Delete | Cleanup | Shutdown

  datatype Writer = Nobody | Asking(who: Who) | Inside(who: Who)

  /** The reaper handles one exit at a time, with the read lock. */
  datatype Reaper = Free | Looking(ofInit: bool)

  datatype State = State(
    container: bool,
    exited: bool,      // init's wait channel is closed
    waiters: nat,      // clients in Service.Wait for init, with the read lock
    listers: nat,      // clients in Service.Pids, with the read lock and about to take it once more
    others: nat,       // other clients with the read lock
    reaper: Reaper,
    writer: Writer,
    cleanups: nat)     // background cleanups that have not asked yet

  /** A client that cannot get a lock, or a call that cannot return, leaves the state as it is. */
  datatype Action =
    | Wait | Return
    | List | Listed
    | Enter | Leave
    | Reap(ofInit: bool) | GoReaper(alone: bool)
    | Ask(who: Who) | GoWriter(ok: bool)

  const NEW := State(true, false, 0, 0, 0, Free, Nobody, 0)

  function Readers(s: State): nat {
    s.waiters + s.listers + s.others + if s.reaper.Looking? then 1 else 0
  }

  function Step(s: State, a: Action): State {
    match a
    case Wait => if s.writer.Nobody? && s.container then s.(waiters := s.waiters + 1) else s
    case Return => if s.waiters > 0 && s.exited then s.(waiters := s.waiters - 1) else s
    case List => if s.writer.Nobody? && s.container then s.(listers := s.listers + 1) else s
    case Listed => if s.writer.Nobody? && s.listers > 0 then s.(listers := s.listers - 1) else s
    case Enter => if s.writer.Nobody? && s.container then s.(others := s.others + 1) else s
    case Leave => if s.others > 0 then s.(others := s.others - 1) else s
    case Reap(ofInit) =>
      if s.reaper.Free? && s.writer.Nobody? && s.container && !(ofInit && s.exited)
      then s.(reaper := Looking(ofInit)) else s
    case GoReaper(alone) =>
      if s.reaper.Free? then s
      else s.(reaper := Free,
              exited := s.exited || s.reaper.ofInit,
              cleanups := s.cleanups + if s.reaper.ofInit && alone then 1 else 0)
    case Ask(who) =>
      if !s.writer.Nobody? || (who.Cleanup? && s.cleanups == 0) then s
      else s.(writer := Asking(who), cleanups := if who.Cleanup? then s.cleanups - 1 else s.cleanups)
    case GoWriter(ok) =>
      match s.writer
      case Nobody => s
      case Asking(who) =>
        if Readers(s) > 0 then s
        else s.(writer := if s.container && !who.Shutdown? then Inside(who) else Nobody)
      case Inside(_) => s.(writer := Nobody, container := s.container && !(ok && s.exited))
  }

  function Run(s: State, acts: seq<Action>): State
    decreases |acts|
  {
    if acts == [] then s else Run(Step(s, acts[0]), acts[1..])
  }

  /** Readers and writer exclude each other, readers have a container, and the background cleans up only
      after init. */
  predicate Inv(s: State) {
    && (s.writer.Inside? ==> Readers(s) == 0)
    && (Readers(s) > 0 ==> s.container)
    && (s.cleanups > 0 || s.writer == Asking(Cleanup) || s.writer == Inside(Cleanup) ==> s.exited)
  }

  lemma StepKeepsInv(s: State, a: Action)
    requires Inv(s)
    ensures Inv(Step(s, a))
  {
  }

  lemma {:induction false} RunKeepsInv(s: State, acts: seq<Action>)
    requires Inv(s)
    ensures Inv(Run(s, acts))
    decreases |acts|
  {
    if acts != [] {
      StepKeepsInv(s, acts[0]);
      RunKeepsInv(Step(s, acts[0]), acts[1..]);
    }
  }

  /** A writer that asks when nobody reads gets in; it takes the container away once init has exited, and then
      nobody enters any more. A shutdown only looks. */
  lemma WriterAlone(s: State, ok: bool)
    requires s.writer.Nobody? && Readers(s) == 0
    ensures var t := Step(Step(s, Ask(Delete)), GoWriter(true));
            && t.writer == (if s.container then Inside(Delete) else Nobody)
            && (s.container ==> Step(t, GoWriter(ok)) == s.(container := !(ok && s.exited)))
    ensures Step(Step(s, Ask(Shutdown)), GoWriter(true)) == s
    ensures !s.container ==> Step(s, Wait) == Step(s, List) == Step(s, Enter) == s
  {
  }

  /** A writer asks, init has not exited, and the reaper is not already in with its exit. */
  predicate Blocked(s: State) {
    s.writer.Asking? && !s.exited && s.reaper != Looking(true)
  }

  lemma {:induction false} BlockedIsForever(s: State, acts: seq<Action>)
    requires Blocked(s) && s.waiters > 0
    ensures var t := Run(s, acts); t.waiters == s.waiters && t.writer == s.writer && !t.exited
    decreases |acts|
  {
    if acts != [] {
      BlockedIsForever(Step(s, acts[0]), acts[1..]);
    }
  }

  /** The way out of Wait: the reaper comes in with the exit of init, reports it, and a waiter returns. */
  function WayOut(s: State): seq<Action> {
    if s.exited then [Return]
    else if s.reaper == Looking(true) then [GoReaper(true), Return]
    else if s.reaper.Free? then [Reap(true), GoReaper(true), Return]
    else [GoReaper(true), Reap(true), GoReaper(true), Return]
  }

  lemma {:induction false} WayOutLeads(s: State)
    requires Inv(s) && s.waiters > 0 && !Blocked(s)
    ensures Run(s, WayOut(s)).waiters == s.waiters - 1
    decreases |WayOut(s)|
  {
    var t := Step(s, WayOut(s)[0]);
    if s.exited {
      assert [Return][1..] == [];
    } else {
      StepKeepsInv(s, WayOut(s)[0]);
      assert WayOut(s)[1..] == WayOut(t);
      WayOutLeads(t);
    }
  }

  /** No client returns from Wait in any continuation, the exit of init is never reported and the writer
      never gets in, exactly if the writer came first. */
  lemma WaitHangsExactly(acts: seq<Action>)
    requires Run(NEW, acts).waiters > 0
    ensures var s := Run(NEW, acts);
            && ((forall more :: Run(s, more).waiters >= s.waiters) <==> Blocked(s))
            && (Blocked(s) ==> forall more :: !Run(s, more).exited && Run(s, more).writer == s.writer)
  {
    RunKeepsInv(NEW, acts);
    var s := Run(NEW, acts);
    if Blocked(s) {
      forall more ensures Run(s, more).waiters >= s.waiters && !Run(s, more).exited && Run(s, more).writer == s.writer {
        BlockedIsForever(s, more);
      }
    } else {
      WayOutLeads(s);
    }
  }

  /** A client waits, and another deletes or shuts down. */
  lemma WaitCanHang(who: Who)
    requires !who.Cleanup?
    ensures var s := Run(NEW, [Wait, Ask(who)]); s.waiters == 1 && Blocked(s)
  {
    assert [Wait, Ask(who)][1..] == [Ask(who)] && [Ask(who)][1..] == [];
    assert Run(Step(NEW, Wait), [Ask(who)]) == Step(Step(NEW, Wait), Ask(who));
  }

  /** The background cleanup never does that: it asks only once init has exited. */
  lemma OnlyClientsHang(acts: seq<Action>)
    requires Blocked(Run(NEW, acts))
    ensures Run(NEW, acts).writer.who.Delete? || Run(NEW, acts).writer.who.Shutdown?
  {
    RunKeepsInv(NEW, acts);
  }

  lemma {:induction false} AskingIsForever(s: State, acts: seq<Action>)
    requires s.writer.Asking? && s.listers > 0
    ensures var t := Run(s, acts); t.listers == s.listers && t.writer == s.writer
    decreases |acts|
  {
    if acts != [] {
      AskingIsForever(Step(s, acts[0]), acts[1..]);
    }
  }

  /** Service.Pids takes the read lock twice. No client returns from it in any continuation, and the writer
      never gets in, exactly if a writer asks between the two. */
  lemma PidsHangsExactly(acts: seq<Action>)
    requires Run(NEW, acts).listers > 0
    ensures var s := Run(NEW, acts);
            && ((forall more :: Run(s, more).listers >= s.listers) <==> s.writer.Asking?)
            && (s.writer.Asking? ==> forall more :: Run(s, more).writer == s.writer)
  {
    RunKeepsInv(NEW, acts);
    var s := Run(NEW, acts);
    if s.writer.Asking? {
      forall more ensures Run(s, more).listers >= s.listers && Run(s, more).writer == s.writer {
        AskingIsForever(s, more);
      }
    } else {
      var more := [Listed];
      assert more[1..] == [] && Run(s, more) == Step(s, Listed);
      assert s.writer.Nobody? && Run(s, more).listers < s.listers;
    }
  }

  lemma RunFour(s: State, a: Action, b: Action, c: Action, d: Action)
    ensures Run(s, [a, b, c, d]) == Step(Step(Step(Step(s, a), b), c), d)
  {
    var t := Step(s, a);
    var u := Step(t, b);
    assert [d][1..] == [] && [c, d][1..] == [d] && [b, c, d][1..] == [c, d] && [a, b, c, d][1..] == [b, c, d];
    assert Run(Step(u, c), [d]) == Step(Step(u, c), d);
    assert Run(u, [c, d]) == Run(Step(u, c), [d]);
    assert Run(t, [b, c, d]) == Run(u, [c, d]);
  }

  /** Here the background cleanup does it too: init exits, a client lists the pids, and the cleanup asks. */
  lemma CleanupCanHangPids()
    ensures var s := Run(NEW, [Reap(true), GoReaper(true), List, Ask(Cleanup)]);
            s.listers == 1 && s.writer == Asking(Cleanup)
  {
    RunFour(NEW, Reap(true), GoReaper(true), List, Ask(Cleanup));
  }
}
