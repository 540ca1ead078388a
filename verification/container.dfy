/** The exec-id table of a container and the clients that work on it (runc/container.go,
    shim/service.go). Each action is one critical section of the container's lock, or one call on the
    process a client has in hand. */
module ExecTable {

  type Id = string
  type Process = nat
  type Client = nat

  datatype Table = Table(processes: map<Id, Process>, reserved: set<Id>)

  function Reserve(t: Table, id: Id): (Table, bool) {
    if id in t.processes || id in t.reserved then (t, false) else (t.(reserved := t.reserved + {id}), true)
  }

  function Cancel(t: Table, id: Id): Table {
    t.(reserved := t.reserved - {id})
  }

  function Add(t: Table, id: Id, p: Process): Table {
    t.(reserved := t.reserved - {id}, processes := t.processes[id := p])
  }

  function Drop(t: Table, id: Id): Table {
    t.(processes := t.processes - {id})
  }

  /** Where a client of Service.Exec or Service.Delete stands. */
  datatype Phase =
    | Reserved(id: Id)                  // about to make the process
    | Cancelling(id: Id)                // making it failed
    | Made(id: Id, process: Process)    // about to add it
    | Found(id: Id, process: Process)   // about to delete the process it looked up
    | Dropping(id: Id, process: Process) // deleted it, about to take it from the table

  /** Besides the table: which client reserved an id, and which one deleted a process. */
  datatype State = State(
    table: Table,
    clients: map<Client, Phase>,
    owner: map<Id, Client>,
    deleter: map<Process, Client>,
    next: Process)

  datatype Action = Exec(c: Client, id: Id) | Delete(c: Client, id: Id) | Go(c: Client, ok: bool)

  const NEW := State(Table(map[], {}), map[], map[], map[], 0)

  function Step(s: State, a: Action): State {
    match a
    case Exec(c, id) =>
      if c in s.clients then s
      else
        var (t, ok) := Reserve(s.table, id);
        if ok then s.(table := t, clients := s.clients[c := Reserved(id)], owner := s.owner[id := c]) else s
    case Delete(c, id) =>
      if c in s.clients || id !in s.table.processes then s
      else s.(clients := s.clients[c := Found(id, s.table.processes[id])])
    case Go(c, ok) => if c in s.clients then Advance(s, c, ok) else s
  }

  /** A deleted process refuses to be deleted again; a running one answers not ok. */
  function Advance(s: State, c: Client, ok: bool): State
    requires c in s.clients
  {
    var done := s.clients - {c};
    match s.clients[c]
    case Reserved(id) =>
      if ok then s.(clients := s.clients[c := Made(id, s.next)], next := s.next + 1)
      else s.(clients := s.clients[c := Cancelling(id)])
    case Cancelling(id) => s.(table := Cancel(s.table, id), clients := done, owner := s.owner - {id})
    case Made(id, p) => s.(table := Add(s.table, id, p), clients := done, owner := s.owner - {id})
    case Found(id, p) =>
      if ok && p !in s.deleter then s.(deleter := s.deleter[p := c], clients := s.clients[c := Dropping(id, p)])
      else s.(clients := done)
    case Dropping(id, _) => s.(table := Drop(s.table, id), clients := done)
  }

  function Run(s: State, acts: seq<Action>): State
    decreases |acts|
  {
    if acts == [] then s else Run(Step(s, acts[0]), acts[1..])
  }

  /** The phases between a reservation and its end. */
  predicate Holds(ph: Phase, id: Id) {
    (ph.Reserved? || ph.Cancelling? || ph.Made?) && ph.id == id
  }

  predicate Listed(t: Table, id: Id, p: Process) {
    id in t.processes && t.processes[id] == p
  }

  /** Reservations: exactly one client stands behind each, and no live process has its id. */
  predicate Reservations(s: State) {
    && s.table.reserved == s.owner.Keys
    && s.table.reserved !! s.table.processes.Keys
    && (forall id :: id in s.owner ==> s.owner[id] in s.clients && Holds(s.clients[s.owner[id]], id))
    && (forall c :: c in s.clients && !s.clients[c].Found? && !s.clients[c].Dropping? ==>
          s.clients[c].id in s.owner && s.owner[s.clients[c].id] == c)
  }

  /** Deletions: what a client looked up stays listed until somebody deletes it, and then until the
      client that did takes it from the table. */
  predicate Deletions(s: State) {
    && (forall c :: c in s.clients && s.clients[c].Found? ==>
          s.clients[c].process in s.deleter || Listed(s.table, s.clients[c].id, s.clients[c].process))
    && (forall c :: c in s.clients && s.clients[c].Dropping? ==>
          && s.clients[c].process in s.deleter && s.deleter[s.clients[c].process] == c
          && Listed(s.table, s.clients[c].id, s.clients[c].process))
  }

  lemma AdvanceKeepsReservations(s: State, c: Client, ok: bool)
    requires Reservations(s) && c in s.clients
    ensures Reservations(Advance(s, c, ok))
  {
  }

  lemma StepKeepsReservations(s: State, a: Action)
    requires Reservations(s)
    ensures Reservations(Step(s, a))
  {
    if a.Go? && a.c in s.clients {
      AdvanceKeepsReservations(s, a.c, a.ok);
    }
  }

  /** Execs list processes under ids that are not live, so nobody's process disappears. */
  lemma ExecKeepsDeletions(s: State, c: Client, ok: bool)
    requires Reservations(s) && Deletions(s) && c in s.clients
    requires !s.clients[c].Found? && !s.clients[c].Dropping?
    ensures Deletions(Advance(s, c, ok))
  {
    assert s.clients[c].id !in s.table.processes;
  }

  lemma FindKeepsDeletions(s: State, c: Client, ok: bool)
    requires Deletions(s) && c in s.clients && s.clients[c].Found?
    ensures Deletions(Advance(s, c, ok))
  {
  }

  /** Two clients that drop one id drop the process one of them deleted. */
  lemma DropKeepsDeletions(s: State, c: Client, ok: bool)
    requires Deletions(s) && c in s.clients && s.clients[c].Dropping?
    ensures Deletions(Advance(s, c, ok))
  {
  }

  lemma AdvanceKeepsDeletions(s: State, c: Client, ok: bool)
    requires Reservations(s) && Deletions(s) && c in s.clients
    ensures Deletions(Advance(s, c, ok))
  {
    match s.clients[c]
    case Found(_, _) => FindKeepsDeletions(s, c, ok);
    case Dropping(_, _) => DropKeepsDeletions(s, c, ok);
    case _ => ExecKeepsDeletions(s, c, ok);
  }

  lemma StepKeepsDeletions(s: State, a: Action)
    requires Reservations(s) && Deletions(s)
    ensures Deletions(Step(s, a))
  {
    if a.Go? && a.c in s.clients {
      AdvanceKeepsDeletions(s, a.c, a.ok);
    }
  }

  lemma {:induction false} RunKeepsInv(s: State, acts: seq<Action>)
    requires Reservations(s) && Deletions(s)
    ensures Reservations(Run(s, acts)) && Deletions(Run(s, acts))
    decreases |acts|
  {
    if acts != [] {
      StepKeepsReservations(s, acts[0]);
      StepKeepsDeletions(s, acts[0]);
      RunKeepsInv(Step(s, acts[0]), acts[1..]);
    }
  }

  /** In every interleaving of Exec, failing Exec and Delete clients: reserved and live ids stay
      disjoint, and a reservation that is still held is its client's alone, so adding a process never
      overwrites one and cancelling removes nobody else's reservation. */
  lemma ReservationsAreExclusive(acts: seq<Action>, c: Client, id: Id)
    requires var s := Run(NEW, acts); c in s.clients && Holds(s.clients[c], id)
    ensures var s := Run(NEW, acts);
            && s.table.reserved !! s.table.processes.Keys
            && id in s.table.reserved && id !in s.table.processes
            && (forall d :: d in s.clients && d != c ==> !Holds(s.clients[d], id))
  {
    RunKeepsInv(NEW, acts);
  }

  /** No reservation is left behind by clients that are done. */
  lemma NoReservationLeaks(acts: seq<Action>)
    requires Run(NEW, acts).clients == map[]
    ensures Run(NEW, acts).table.reserved == {}
  {
    RunKeepsInv(NEW, acts);
  }

  /** What a Delete client takes from the table is the process it deleted itself, never a newer one
      under the same id, and no second client takes it too. */
  lemma DropTakesOwnProcess(acts: seq<Action>, c: Client)
    requires var s := Run(NEW, acts); c in s.clients && s.clients[c].Dropping?
    ensures var s := Run(NEW, acts);
            && Listed(s.table, s.clients[c].id, s.clients[c].process)
            && (forall d :: d in s.clients && d != c && s.clients[d].Dropping? ==> s.clients[d].id != s.clients[c].id)
  {
    RunKeepsInv(NEW, acts);
  }

  // ---- What each operation does ----

  /** An id is reserved exactly if it is neither live nor reserved. */
  lemma ReservesExactly(t: Table, id: Id)
    ensures var (u, ok) := Reserve(t, id);
            && (ok <==> id !in t.processes && id !in t.reserved)
            && u.processes == t.processes
            && u.reserved == (if ok then t.reserved + {id} else t.reserved)
  {
  }

  lemma RunThree(s: State, a: Action, b: Action, c: Action)
    ensures Run(s, [a, b, c]) == Step(Step(Step(s, a), b), c)
  {
    var t := Step(s, a);
    assert [c][1..] == [] && [b, c][1..] == [c] && [a, b, c][1..] == [b, c];
    assert Run(Step(t, b), [c]) == Step(Step(t, b), c);
    assert Run(t, [b, c]) == Run(Step(t, b), [c]);
  }

  lemma Leaves(clients: map<Client, Phase>, c: Client, ph: Phase)
    requires c !in clients
    ensures clients[c := ph] - {c} == clients
  {
  }

  /** The client that reserved id, after its process could be made or not. */
  lemma MakeAlone(s: State, c: Client, id: Id, clients: map<Client, Phase>, ok: bool)
    requires c !in clients && s.clients == clients[c := Reserved(id)]
    ensures var t := Step(Step(s, Go(c, ok)), Go(c, true));
            && t.clients == clients && t.table.reserved == s.table.reserved - {id}
            && t.table.processes == (if ok then s.table.processes[id := s.next] else s.table.processes)
            && t.next == (if ok then s.next + 1 else s.next)
  {
    var ph := if ok then Made(id, s.next) else Cancelling(id);
    var t := Step(s, Go(c, ok));
    assert t.clients == clients[c := ph];
    Leaves(clients, c, ph);
  }

  /** A client of Exec that nobody interrupts: a free id ends up with a new process, or free again if the
      process cannot be made; an id in use stays as it is. */
  lemma ExecAlone(acts: seq<Action>, c: Client, id: Id, ok: bool)
    requires c !in Run(NEW, acts).clients
    ensures var s := Run(NEW, acts);
            var t := Run(s, [Exec(c, id), Go(c, ok), Go(c, true)]);
            var free := id !in s.table.processes && id !in s.table.reserved;
            && t.clients == s.clients && t.table.reserved == s.table.reserved
            && t.table.processes == (if free && ok then s.table.processes[id := s.next] else s.table.processes)
            && t.next == (if free && ok then s.next + 1 else s.next)
  {
    var s := Run(NEW, acts);
    RunThree(s, Exec(c, id), Go(c, ok), Go(c, true));
    if id !in s.table.processes && id !in s.table.reserved {
      MakeAlone(Step(s, Exec(c, id)), c, id, s.clients, ok);
      assert s.table.reserved + {id} - {id} == s.table.reserved;
    }
  }

  /** A client of Delete that nobody interrupts: the process is deleted and its id free, or, if deleting it
      fails, everything is as before. */
  lemma DeleteAlone(acts: seq<Action>, c: Client, id: Id, ok: bool)
    requires var s := Run(NEW, acts);
             c !in s.clients && id in s.table.processes && s.table.processes[id] !in s.deleter
    ensures var s := Run(NEW, acts);
            var t := Run(s, [Delete(c, id), Go(c, ok), Go(c, true)]);
            var p := s.table.processes[id];
            && t.clients == s.clients && t.table.reserved == s.table.reserved
            && t.table.processes == (if ok then s.table.processes - {id} else s.table.processes)
            && t.deleter == (if ok then s.deleter[p := c] else s.deleter)
  {
    var s := Run(NEW, acts);
    var p := s.table.processes[id];
    RunThree(s, Delete(c, id), Go(c, ok), Go(c, true));
    Leaves(s.clients, c, Found(id, p));
    Leaves(s.clients, c, Dropping(id, p));
    assert s.clients[c := Found(id, p)][c := Dropping(id, p)] == s.clients[c := Dropping(id, p)];
  }
}

/** The container object's maps. */
module Container {
  import T = ExecTable

  class Container {
    var processes: map<T.Id, T.Process>
    var reservedProcess: set<T.Id>

    function View(): T.Table
      reads this
    {
      T.Table(processes, reservedProcess)
    }

    constructor ()
      ensures View() == T.NEW.table
    {
      processes, reservedProcess := map[], {};
    }

    method ReserveProcess(id: T.Id) returns (ok: bool)
      modifies this`reservedProcess
      ensures (View(), ok) == T.Reserve(old(View()), id)
      ensures ok <==> id !in processes && id !in old(reservedProcess)
      ensures reservedProcess == old(reservedProcess) + (if ok then {id} else {})
    {
      if id in processes {
        return false;
      }
      if id in reservedProcess {
        return false;
      }
      reservedProcess := reservedProcess + {id};
      return true;
    }

    /** The cancel function that a successful reservation hands out. */
    method CancelReservation(id: T.Id)
      modifies this`reservedProcess
      ensures View() == T.Cancel(old(View()), id)
      ensures reservedProcess == old(reservedProcess) - {id}
    {
      reservedProcess := reservedProcess - {id};
    }

    method ProcessAdd(id: T.Id, process: T.Process)
      modifies this
      ensures View() == T.Add(old(View()), id, process)
      ensures processes == old(processes)[id := process] && reservedProcess == old(reservedProcess) - {id}
    {
      reservedProcess := reservedProcess - {id};
      processes := processes[id := process];
    }

    method ProcessRemove(id: T.Id)
      modifies this`processes
      ensures View() == T.Drop(old(View()), id)
      ensures processes == old(processes) - {id}
    {
      processes := processes - {id};
    }
  }
}

/** The reaper's look at all processes of a container after one exit (shim/shim.go). */
module ExitCheck {
  /** A process that has stopped keeps its pid; one that never ran has pid 0. */
  datatype Process = Process(pid: nat, stopped: bool)

  /** What the exit of one process is announced as. */
  datatype Report = ExecExit(i: nat) | InitExit(i: nat) | InitPause(i: nat)

  /** The report for process i depends on the pid alone: the pid of init makes it init's. */
  function Announced(i: nat, ofInit: bool, disabled: bool): Report {
    if !ofInit then ExecExit(i) else if disabled then InitExit(i) else InitPause(i)
  }

  predicate Cleans(all: seq<Process>, exited: nat) {
    forall i :: 0 <= i < |all| ==> all[i].pid == exited
  }

  function Stop(p: Process, exited: nat): Process {
    if p.pid == exited then p.(stopped := true) else p
  }

  /** The reports on the first n processes. */
  function Reports(all: seq<Process>, n: nat, exited: nat, ofInit: bool, disabled: bool): seq<Report>
    requires n <= |all|
  {
    if n == 0 then []
    else
      var before := Reports(all, n - 1, exited, ofInit, disabled);
      if all[n - 1].pid == exited then before + [Announced(n - 1, ofInit, disabled)] else before
  }

  /** An exit of another pid than init's is announced as the exec's. The exit of init is announced as one
      only by a shim that is disabled, and as a pause by any other. */
  lemma AnnouncedAs(all: seq<Process>, n: nat, exited: nat, ofInit: bool, disabled: bool, r: Report)
    requires n <= |all| && r in Reports(all, n, exited, ofInit, disabled)
    ensures r.ExecExit? <==> !ofInit
    ensures r.InitExit? <==> ofInit && disabled
    ensures r.InitPause? <==> ofInit && !disabled
    ensures r.i < n && all[r.i].pid == exited
  {
    if r !in Reports(all, n - 1, exited, ofInit, disabled) {
      assert r == Announced(n - 1, ofInit, disabled);
    } else {
      AnnouncedAs(all, n - 1, exited, ofInit, disabled, r);
    }
  }

  /** Every process with the pid that exited is reported once, and no other. */
  lemma {:induction false} ReportedExactlyOnce(
      all: seq<Process>, n: nat, i: nat, exited: nat, ofInit: bool, disabled: bool)
    requires n <= |all|
    ensures multiset(Reports(all, n, exited, ofInit, disabled))[Announced(i, ofInit, disabled)]
            == if i < n && all[i].pid == exited then 1 else 0
    ensures forall r :: r in Reports(all, n, exited, ofInit, disabled) ==> r == Announced(r.i, ofInit, disabled)
    decreases n
  {
    if n > 0 {
      ReportedExactlyOnce(all, n - 1, i, exited, ofInit, disabled);
    }
  }

  lemma {:induction false} NobodyIsReported(all: seq<Process>, n: nat, exited: nat, ofInit: bool, disabled: bool)
    requires n <= |all| && forall k :: 0 <= k < |all| ==> all[k].pid != exited
    ensures Reports(all, n, exited, ofInit, disabled) == []
    decreases n
  {
    if n > 0 {
      NobodyIsReported(all, n - 1, exited, ofInit, disabled);
    }
  }

  predicate HasPid(all: seq<Process>, pid: nat) {
    exists k :: 0 <= k < |all| && all[k].pid == pid
  }

  /** all is container.All(): the execs in the table, and init last. Cleanup is started exactly if the
      container is started and nothing but processes with that pid is in the table. */
  method CheckProcesses(all: seq<Process>, started: bool, disabled: bool, exited: nat)
    returns (after: seq<Process>, reports: seq<Report>, cleanup: bool)
    requires all != []
    ensures |after| == |all| && forall i :: 0 <= i < |all| ==> after[i] == Stop(all[i], exited)
    ensures reports == Reports(all, |all|, exited, exited == all[|all| - 1].pid, disabled)
    ensures forall r :: r in reports ==> (r.ExecExit? <==> exited != all[|all| - 1].pid)
    ensures forall r :: r in reports ==> (r.InitExit? <==> exited == all[|all| - 1].pid && disabled)
    ensures cleanup <==> started && Cleans(all, exited)
  {
    var init := all[|all| - 1];
    var living := 0;
    if !HasPid(all, exited) {
      NobodyIsReported(all, |all|, exited, exited == init.pid, disabled);
      assert all[0].pid != exited;
      return all, [], false;
    }
    after, reports := [], [];
    var i := 0;
    while i < |all|
      invariant 0 <= i <= |all|
      invariant |after| == i && forall k :: 0 <= k < i ==> after[k] == Stop(all[k], exited)
      invariant reports == Reports(all, i, exited, exited == init.pid, disabled)
      invariant living >= 0 && (living == 0 <==> forall k :: 0 <= k < i ==> all[k].pid == exited)
    {
      after := after + [Stop(all[i], exited)];
      if all[i].pid == exited {
        reports := reports + [Announced(i, exited == init.pid, disabled)];
      } else {
        living := living + 1;
      }
      i := i + 1;
    }
    cleanup := started && living == 0;
    forall r | r in reports ensures r.ExecExit? <==> exited != init.pid
                            ensures r.InitExit? <==> exited == init.pid && disabled {
      AnnouncedAs(all, |all|, exited, exited == init.pid, disabled, r);
    }
  }

  /** No process is alive after the exit of this pid: each has that pid, had stopped before or never ran. */
  predicate NobodyLives(all: seq<Process>, exited: nat) {
    forall i :: 0 <= i < |all| ==> all[i].pid == exited || all[i].stopped || all[i].pid == 0
  }

  /** Processes that nobody deleted count as living though they are dead or never ran: when an exit leaves
      no process alive, cleanup starts exactly if no other process had stopped before and each one ran. */
  lemma LastExitCleansExactly(all: seq<Process>, exited: nat)
    requires exited > 0 && NobodyLives(all, exited)
    ensures Cleans(all, exited)
            <==> forall i :: 0 <= i < |all| ==> (all[i].stopped ==> all[i].pid == exited) && all[i].pid != 0
  {
  }

  /** An exec stops, nobody deletes it, and the exit of init then leaves no process alive and no cleanup. */
  lemma StoppedExecPreventsCleanup()
    ensures var all := [Process(2, true), Process(1, false)]; NobodyLives(all, 1) && !Cleans(all, 1)
  {
    assert [Process(2, true), Process(1, false)][0].pid != 1;
  }

  /** So does an exec that was added and never started, or whose start the runtime rejected. */
  lemma UnstartedExecPreventsCleanup()
    ensures var all := [Process(0, false), Process(1, false)]; NobodyLives(all, 1) && !Cleans(all, 1)
  {
    assert [Process(0, false), Process(1, false)][0].pid != 1;
  }
}
