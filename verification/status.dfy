/** Advisory record locks as one POSIX process sees them: F_SETLK, F_GETLK and F_UNLCK of fcntl() in
    POSIX.1-2017, System Interfaces (utils/flock.go). */
module FileLocks {
  import opened Common

  type Pid = nat

  /** The owner of a write lock on a whole file. */
  type Lock = Option<Pid>

  /** A process can take a lock that nobody else holds; its own lock it simply replaces. */
  predicate CanTake(l: Lock, p: Pid) {
    l == None || l == Some(p)
  }

  /** A lock is refused exactly to those who do not own it while somebody does, and only its owner frees it. */
  lemma LocksExclude(l: Lock, p: Pid, q: Pid)
    ensures CanTake(l, p) <==> l.None? || l.value == p
    ensures CanTake(l, p) && CanTake(l, q) && p != q ==> l.None?
    ensures Unlocked(l, p).None? <==> CanTake(l, p)
    ensures !CanTake(l, p) ==> Unlocked(l, p) == l
  {
  }

  /** Unlocking what another process holds changes nothing. */
  function Unlocked(l: Lock, p: Pid): Lock {
    if l == Some(p) then None else l
  }
}

/** The two lock files, the status record, and what one process's manager does to them
    (common/status.go). */
module ShimStatus {
  import opened Common
  import opened FileLocks

  datatype Exit = Exit(pid: nat, status: nat)

  datatype Record = Record(pid: nat, created: bool, disabled: bool, exit: Option<Exit>)

  datatype Files = Files(status: Lock, running: Lock, record: Record)

  /** What a manager believes about its locks. */
  datatype Flags = Flags(status: bool, running: bool)

  /** One attempt to take the status file's lock; the manager asks only if it has no flag. */
  function TakeStatus(fs: Files, fl: Flags, p: Pid): (Files, Flags, bool) {
    if fl.status then (fs, fl, true)
    else if CanTake(fs.status, p) then (fs.(status := Some(p)), fl.(status := true), true)
    else (fs, fl, false)
  }

  /** The running flag is set whether or not the attempt succeeded. */
  function TakeRunning(fs: Files, fl: Flags, p: Pid): (Files, Flags, bool) {
    if fl.running then (fs, fl, true)
    else if CanTake(fs.running, p) then (fs.(running := Some(p)), fl.(running := true), true)
    else (fs, fl.(running := true), false)
  }

  /** The flag goes even if the call fails and the lock stays. */
  function DropStatus(fs: Files, fl: Flags, p: Pid, ok: bool): (Files, Flags) {
    if !fl.status then (fs, fl)
    else (fs.(status := if ok then Unlocked(fs.status, p) else fs.status), fl.(status := false))
  }

  function DropRunning(fs: Files, fl: Flags, p: Pid, ok: bool): (Files, Flags) {
    if !fl.running then (fs, fl)
    else (fs.(running := if ok then Unlocked(fs.running, p) else fs.running), fl.(running := false))
  }

  /** IsShimRunning: the flag if set, otherwise whether someone else holds the lock. */
  predicate ShimRunning(fs: Files, fl: Flags, p: Pid) {
    fl.running || !CanTake(fs.running, p)
  }

  /** The record only ever moves forward. */
  predicate Forward(r: Record, r': Record) {
    && (r.created ==> r'.created)
    && (r.disabled ==> r'.disabled)
    && (r.exit.Some? ==> r'.exit.Some?)
  }

  /** The polling for the status lock gets it, or the manager has it already; ok tells whether the calls
      and the context hold out. */
  predicate GetsStatus(fs: Files, fl: Flags, p: Pid, ok: bool) {
    fl.status || (ok && CanTake(fs.status, p))
  }

  predicate GetsRunning(fs: Files, fl: Flags, p: Pid, ok: bool) {
    fl.running || (ok && CanTake(fs.running, p))
  }

  /** Whom the manager's next claims may rely on: a set status flag means ownership. */
  predicate Honest(fs: Files, fl: Flags, p: Pid) {
    && (fl.status ==> fs.status == Some(p))
    && (fl.running ==> fs.running == Some(p))
  }

  // ---- The operations of the task side ----

  datatype TaskOp = Disable | Exited | ReadStatus

  /** Whether an operation that read r writes the record at all. */
  predicate Writes(op: TaskOp, r: Record) {
    match op
    case Disable => !r.disabled
    case Exited => false
    case ReadStatus => r.disabled && r.exit.None?
  }

  /** What an operation leaves in the record it read as r. */
  function Updated(op: TaskOp, r: Record): Record {
    if !Writes(op, r) then r
    else if op.Disable? then r.(disabled := true)
    else r.(exit := Some(Exit(r.pid, 0)))
  }

  /** The status Disable returns, for the record it read. An exit is made up only on the first call. */
  function DisableReport(r: Record, running: bool): Record {
    if !r.disabled && !running && r.exit.None? then r.(exit := Some(Exit(r.pid, 0))) else r
  }

  /** Task.Kill reads the exit of a shim that is not running. Disable has one to give exactly when
      the record was not already disabled without an exit. */
  lemma DisableReportsExitExactly(r: Record, running: bool)
    requires !running
    ensures DisableReport(r, running).exit.Some? <==> !(r.disabled && r.exit.None?)
  {
  }
}

/** One manager on the two files, when nothing else moves while a call runs. Interleavings are the
    subject of LockProtocol, which takes the same steps one at a time. */
module StatusManager {
  import opened Common
  import opened FileLocks
  import opened ShimStatus

  /** The bundle directory's lock files and record, shared by all processes. */
  class Disk {
    var status: Lock
    var running: Lock
    var record: Record

    function State(): Files
      reads this
    {
      Files(status, running, record)
    }
  }

  datatype Error = NoError | Failed | BundleDisabled | AlreadyRunning

  /** Which foreign calls of one operation succeed: polling for the status lock, reading the record,
      trying the running lock, asking for its owner, writing the record, giving back either lock. */
  datatype Calls = Calls(
    lock: bool,
    read: bool,
    lockRunning: bool,
    query: bool,
    write: bool,
    unlock: bool,
    unlockRunning: bool)

  /** What p leaves of a lock it has taken, if it gives it back and the call may fail. */
  function Returned(p: Pid, ok: bool): Lock {
    if ok then None else Some(p)
  }

  class StatusManager {
    const disk: Disk
    const pid: Pid
    var statusFileLocked: bool
    var runningFileLocked: bool

    function State(): Flags
      reads this
    {
      Flags(statusFileLocked, runningFileLocked)
    }

    constructor (disk: Disk, pid: Pid)
      ensures this.disk == disk && this.pid == pid && State() == Flags(false, false)
    {
      this.disk, this.pid := disk, pid;
      statusFileLocked, runningFileLocked := false, false;
    }

    /** A lock that stays taken until the context ends is reported like a call that fails. */
    method LockStatusFile(ok: bool) returns (got: bool)
      modifies this`statusFileLocked, disk`status
      ensures got == GetsStatus(old(disk.State()), old(State()), pid, ok)
      ensures got ==> (disk.State(), State(), true) == TakeStatus(old(disk.State()), old(State()), pid)
      ensures got ==> statusFileLocked && (old(statusFileLocked) || disk.status == Some(pid))
      ensures !got ==> disk.State() == old(disk.State()) && State() == old(State())
    {
      if statusFileLocked {
        return true;
      }
      if !ok || !CanTake(disk.status, pid) {
        return false;
      }
      disk.status := Some(pid);
      statusFileLocked := true;
      return true;
    }

    /** One attempt. A call that fails leaves the flag alone, one that is refused sets it. */
    method LockRunningFile(ok: bool) returns (succ: bool, err: Error)
      modifies this`runningFileLocked, disk`running
      ensures succ == GetsRunning(old(disk.State()), old(State()), pid, ok)
      ensures err.NoError? <==> ok || old(runningFileLocked)
      ensures (disk.State(), State(), succ) == if err.NoError? then TakeRunning(old(disk.State()), old(State()), pid)
                                               else (old(disk.State()), old(State()), false)
      ensures err.NoError? || err.Failed?
      ensures succ ==> old(runningFileLocked) || disk.running == Some(pid)
      ensures !succ ==> disk.running == old(disk.running)
      ensures runningFileLocked == (old(runningFileLocked) || err.NoError?)
    {
      if runningFileLocked {
        return true, NoError;
      }
      if !ok {
        return false, Failed;
      }
      succ := CanTake(disk.running, pid);
      disk.running := if succ then Some(pid) else disk.running;
      runningFileLocked := true;
      err := NoError;
    }

    /** The flag goes even if the call fails and the lock stays. */
    method UnlockStatusFile(ok: bool) returns (err: Error)
      modifies this`statusFileLocked, disk`status
      ensures (disk.State(), State()) == DropStatus(old(disk.State()), old(State()), pid, ok)
      ensures !statusFileLocked
      ensures disk.status
              == if ok && old(statusFileLocked) && old(disk.status) == Some(pid) then None else old(disk.status)
      ensures err == if ok || !old(statusFileLocked) then NoError else Failed
    {
      if !statusFileLocked {
        return NoError;
      }
      statusFileLocked := false;
      if !ok {
        return Failed;
      }
      disk.status := Unlocked(disk.status, pid);
      return NoError;
    }

    method UnlockRunningFile(ok: bool) returns (err: Error)
      modifies this`runningFileLocked, disk`running
      ensures (disk.State(), State()) == DropRunning(old(disk.State()), old(State()), pid, ok)
      ensures !runningFileLocked
      ensures disk.running
              == if ok && old(runningFileLocked) && old(disk.running) == Some(pid) then None else old(disk.running)
      ensures err == if ok || !old(runningFileLocked) then NoError else Failed
    {
      if !runningFileLocked {
        return NoError;
      }
      runningFileLocked := false;
      if !ok {
        return Failed;
      }
      disk.running := Unlocked(disk.running, pid);
      return NoError;
    }

    /** Both flags go; each lock goes unless its call fails, and either failure is reported. */
    method ReleaseLocks(okStatus: bool, okRunning: bool) returns (err: Error)
      modifies this, disk`status, disk`running
      ensures State() == Flags(false, false) && disk.record == old(disk.record)
      ensures disk.status
              == if okStatus && old(statusFileLocked) then Unlocked(old(disk.status), pid) else old(disk.status)
      ensures disk.running
              == if okRunning && old(runningFileLocked) then Unlocked(old(disk.running), pid) else old(disk.running)
      ensures err.NoError? <==> (okStatus || !old(statusFileLocked)) && (okRunning || !old(runningFileLocked))
    {
      err := UnlockStatusFile(okStatus);
      var err2 := UnlockRunningFile(okRunning);
      if !err.NoError? {
        return err;
      }
      return err2;
    }

    /** If the question fails, a shim is taken to be running. */
    method IsShimRunning(ok: bool) returns (running: bool, err: Error)
      ensures err == if ok || runningFileLocked then NoError else Failed
      ensures running == if err.NoError? then ShimRunning(disk.State(), State(), pid) else true
      ensures running <==> runningFileLocked || !ok || (disk.running.Some? && disk.running != Some(pid))
    {
      if runningFileLocked {
        return true, NoError;
      }
      if !ok {
        return true, Failed;
      }
      return !CanTake(disk.running, pid), NoError;
    }

    /** A shim that gets through owns both locks of a bundle that is not disabled; one that does not
        holds no status lock, and keeps a stale running flag exactly when another owner was in the way. */
    method LockForStartShim(calls: Calls) returns (status: Record, err: Error)
      requires Honest(disk.State(), State(), pid)
      modifies this, disk`status, disk`running
      ensures var gets := GetsStatus(old(disk.State()), old(State()), pid, calls.lock);
              var runs := GetsRunning(old(disk.State()), old(State()), pid, calls.lockRunning);
              && (err.NoError? <==> gets && calls.read && !disk.record.disabled && runs)
              && (err.BundleDisabled? <==> gets && calls.read && disk.record.disabled)
              && (err.AlreadyRunning? <==> gets && calls.read && !disk.record.disabled && calls.lockRunning && !runs)
              && (!gets ==> disk.State() == old(disk.State()) && State() == old(State()))
              && (gets && !err.NoError? ==>
                    && disk.status == Returned(pid, calls.unlock) && !statusFileLocked
                    && disk.running == old(disk.running))
      ensures disk.record == old(disk.record)
      ensures err.NoError? ==>
                status == disk.record && disk.status == disk.running == Some(pid) && State() == Flags(true, true)
      ensures runningFileLocked <==> old(runningFileLocked) || err.NoError? || err.AlreadyRunning?
    {
      var got := LockStatusFile(calls.lock);
      if !got {
        return disk.record, Failed;
      }
      status := disk.record;
      if !calls.read {
        var _ := UnlockStatusFile(calls.unlock);
        return status, Failed;
      }
      if status.disabled {
        var _ := UnlockStatusFile(calls.unlock);
        return status, BundleDisabled;
      }
      var succ;
      succ, err := LockRunningFile(calls.lockRunning);
      if !err.NoError? {
        var _ := UnlockStatusFile(calls.unlock);
        return status, err;
      }
      if !succ {
        var _ := UnlockStatusFile(calls.unlock);
        return status, AlreadyRunning;
      }
      return status, NoError;
    }

    /** Cleanup holds both locks if it gets the running lock, and no status lock otherwise. */
    method LockForCleanup(calls: Calls) returns (status: Record, locked: bool, err: Error)
      requires Honest(disk.State(), State(), pid)
      modifies this, disk`status, disk`running
      ensures var gets := GetsStatus(old(disk.State()), old(State()), pid, calls.lock);
              && (err.NoError? <==> gets && calls.read && (calls.lockRunning || old(runningFileLocked)))
              && (locked <==>
                    gets && calls.read && GetsRunning(old(disk.State()), old(State()), pid, calls.lockRunning))
              && (!gets ==> disk.State() == old(disk.State()) && State() == old(State()))
              && (gets && !locked ==>
                    && disk.status == Returned(pid, calls.unlock) && !statusFileLocked
                    && disk.running == old(disk.running))
      ensures disk.record == old(disk.record)
      ensures locked ==>
                status == disk.record && disk.status == disk.running == Some(pid) && State() == Flags(true, true)
      ensures runningFileLocked <==> old(runningFileLocked) || err.NoError?
    {
      var got := LockStatusFile(calls.lock);
      if !got {
        return disk.record, false, Failed;
      }
      status := disk.record;
      if !calls.read {
        var _ := UnlockStatusFile(calls.unlock);
        return status, false, Failed;
      }
      locked, err := LockRunningFile(calls.lockRunning);
      if !locked {
        var _ := UnlockStatusFile(calls.unlock);
      }
    }

    method LockForTaskManager(calls: Calls) returns (status: Record, shimRunning: bool, err: Error)
      requires Honest(disk.State(), State(), pid)
      modifies this`statusFileLocked, disk`status
      ensures var gets := GetsStatus(old(disk.State()), old(State()), pid, calls.lock);
              && (err.NoError? <==> gets && calls.read && (calls.query || runningFileLocked))
              && (!gets ==> disk.State() == old(disk.State()) && State() == old(State()))
              && (gets && !err.NoError? ==> disk.status == Returned(pid, calls.unlock) && !statusFileLocked)
      ensures err.NoError? ==> disk.status == Some(pid) && statusFileLocked && status == disk.record
      ensures err.NoError? ==> shimRunning == ShimRunning(disk.State(), State(), pid)
    {
      var got := LockStatusFile(calls.lock);
      if !got {
        return disk.record, false, Failed;
      }
      status := disk.record;
      if !calls.read {
        var _ := UnlockStatusFile(calls.unlock);
        return status, false, Failed;
      }
      shimRunning, err := IsShimRunning(calls.query);
      if !err.NoError? {
        var _ := UnlockStatusFile(calls.unlock);
      }
    }

    method LockForUpdateStatus(calls: Calls) returns (status: Record, err: Error)
      requires Honest(disk.State(), State(), pid)
      modifies this`statusFileLocked, disk`status
      ensures var gets := GetsStatus(old(disk.State()), old(State()), pid, calls.lock);
              && (err.NoError? <==> gets && calls.read)
              && (!gets ==> disk.State() == old(disk.State()) && State() == old(State()))
              && (gets && !err.NoError? ==> disk.status == Returned(pid, calls.unlock) && !statusFileLocked)
      ensures err.NoError? ==> disk.status == Some(pid) && statusFileLocked && status == disk.record
    {
      var got := LockStatusFile(calls.lock);
      if !got {
        return disk.record, Failed;
      }
      if !calls.read {
        var _ := UnlockStatusFile(calls.unlock);
        return disk.record, Failed;
      }
      return disk.record, NoError;
    }

    method UpdateStatus(status: Record, calls: Calls) returns (err: Error)
      requires Honest(disk.State(), State(), pid)
      modifies this`statusFileLocked, disk`status, disk`record
      ensures var gets := GetsStatus(old(disk.State()), old(State()), pid, calls.lock);
              && (err.NoError? <==> gets && calls.write)
              && (!gets ==> disk.State() == old(disk.State()) && State() == old(State()))
              && (gets && !err.NoError? ==>
                    disk.record == old(disk.record) && disk.status == Returned(pid, calls.unlock) && !statusFileLocked)
      ensures err.NoError? ==> disk.record == status && disk.status == Some(pid) && statusFileLocked
      ensures err.NoError? || err.Failed?
    {
      var got := LockStatusFile(calls.lock);
      if !got {
        return Failed;
      }
      if !calls.write {
        var _ := UnlockStatusFile(calls.unlock);
        return Failed;
      }
      disk.record := status;
      return NoError;
    }
  }

  class Bundle {
    const manager: StatusManager

    constructor (manager: StatusManager)
      ensures this.manager == manager
    {
      this.manager := manager;
    }

    /** Between its operations a bundle believes in no lock. It still has one if giving it back failed. */
    predicate AtRest()
      reads manager
    {
      manager.State() == Flags(false, false)
    }

    /** The status lock after an operation that got it. */
    function AfterLock(status: Lock, calls: Calls): Lock
      reads manager
    {
      if calls.lock && CanTake(status, manager.pid) then Returned(manager.pid, calls.unlock) else status
    }

    /** Cleanup leaves no flag behind, and no lock unless giving it back fails, whether or not it got to
        clean; pause tells that it also published the pause of a container that was created and not
        disabled. */
    method Cleanup(calls: Calls, removed: bool) returns (cleaned: bool, pause: bool, err: Error)
      requires AtRest()
      modifies manager, manager.disk
      ensures AtRest() && manager.disk.record == old(manager.disk.record)
      ensures var gets := calls.lock && CanTake(old(manager.disk.status), manager.pid)
                          && calls.read && calls.lockRunning;
              && (cleaned <==> gets && CanTake(old(manager.disk.running), manager.pid))
              && (err.NoError? <==> gets && (cleaned ==> removed))
      ensures pause <==> cleaned && manager.disk.record.created && !manager.disk.record.disabled
      ensures manager.disk.status == AfterLock(old(manager.disk.status), calls)
      ensures manager.disk.running
              == if cleaned then Returned(manager.pid, calls.unlockRunning) else old(manager.disk.running)
    {
      var status, locked;
      status, locked, err := manager.LockForCleanup(calls);
      if !err.NoError? {
        return false, false, err;
      }
      cleaned, pause := false, false;
      if locked {
        cleaned := true;
        pause := status.created && !status.disabled;
        err := if removed then NoError else Failed;
      }
      var _ := manager.ReleaseLocks(calls.unlock, calls.unlockRunning);
    }

    /** Disabling writes nothing but the flag; the exit it reports may be made up. */
    method Disable(calls: Calls) returns (status: Record, shimRunning: bool, err: Error)
      requires AtRest()
      modifies manager, manager.disk
      ensures AtRest() && manager.disk.running == old(manager.disk.running)
      ensures manager.disk.status == AfterLock(old(manager.disk.status), calls)
      ensures var gets := calls.lock && CanTake(old(manager.disk.status), manager.pid) && calls.read && calls.query;
              && (err.NoError? <==> gets && (old(manager.disk.record).disabled || calls.write))
              && (gets ==> shimRunning == !CanTake(manager.disk.running, manager.pid))
              && (gets ==> status == DisableReport(old(manager.disk.record), shimRunning))
              && (gets && !status.disabled && !shimRunning ==> status.exit.Some?)
              && (gets && status != old(manager.disk.record) ==>
                    status == old(manager.disk.record).(exit := Some(Exit(old(manager.disk.record).pid, 0))))
      ensures manager.disk.record
              == if err.NoError? then old(manager.disk.record).(disabled := true) else old(manager.disk.record)
      ensures err.NoError? ==> manager.disk.record == Updated(TaskOp.Disable, old(manager.disk.record))
    {
      status, shimRunning, err := manager.LockForTaskManager(calls);
      if !err.NoError? {
        return;
      }
      if status.disabled {
        var _ := manager.UnlockStatusFile(calls.unlock);
        return;
      }
      var newStatus := status.(disabled := true);
      if !shimRunning && status.exit.None? {
        status := status.(exit := Some(Exit(status.pid, 0)));
      }
      err := manager.UpdateStatus(newStatus, calls);
      var _ := manager.UnlockStatusFile(calls.unlock);
    }

    method Exited(calls: Calls) returns (exit: Option<Exit>, shimRunning: bool, err: Error)
      requires AtRest()
      modifies manager, manager.disk
      ensures AtRest()
      ensures manager.disk.State() == old(manager.disk.State()).(status := AfterLock(old(manager.disk.status), calls))
      ensures err.NoError? <==>
                calls.lock && CanTake(old(manager.disk.status), manager.pid) && calls.read && calls.query
      ensures err.NoError? ==>
                exit == manager.disk.record.exit && shimRunning == !CanTake(manager.disk.running, manager.pid)
    {
      var status;
      status, shimRunning, err := manager.LockForTaskManager(calls);
      if !err.NoError? {
        return None, false, err;
      }
      var _ := manager.UnlockStatusFile(calls.unlock);
      return status.exit, shimRunning, NoError;
    }

    /** A disabled bundle is never reported without an exit, and the record is corrected to match unless
        writing it fails, which nobody is told. */
    method ShimStatus(calls: Calls) returns (status: Record, shimRunning: bool, err: Error)
      requires AtRest()
      modifies manager, manager.disk
      ensures AtRest() && manager.disk.running == old(manager.disk.running)
      ensures manager.disk.status == AfterLock(old(manager.disk.status), calls)
      ensures err.NoError? <==>
                calls.lock && CanTake(old(manager.disk.status), manager.pid) && calls.read && calls.query
      ensures manager.disk.record == if err.NoError? && calls.write then Updated(ReadStatus, old(manager.disk.record))
                                     else old(manager.disk.record)
      ensures err.NoError? ==>
        && status == Updated(ReadStatus, old(manager.disk.record))
        && shimRunning == !CanTake(manager.disk.running, manager.pid)
        && (status.disabled ==> status.exit.Some?)
        && (status != old(manager.disk.record) ==>
              old(manager.disk.record).disabled
              && status == old(manager.disk.record).(exit := Some(Exit(old(manager.disk.record).pid, 0))))
    {
      status, shimRunning, err := manager.LockForTaskManager(calls);
      if !err.NoError? {
        return;
      }
      if status.disabled && status.exit.None? {
        status := status.(exit := Some(Exit(status.pid, 0)));
        var _ := manager.UpdateStatus(status, calls);
      }
      var _ := manager.UnlockStatusFile(calls.unlock);
    }
  }

  /** The steps of Service.init outside the manager. */
  datatype Steps = Steps(loadOpts: bool, cleanup: bool, create: bool, start: bool)

  /** The shim's two uses of its manager. */
  class ShimService {
    const manager: StatusManager

    constructor (manager: StatusManager)
      ensures this.manager == manager
    {
      this.manager := manager;
    }

    /** A shim that comes up serves with the running lock alone and has its pid in the record. One that
        does not may have written the record before, and has what it could not give back; it gives up even
        if only giving back the status lock failed. */
    method Init(calls: Calls, steps: Steps) returns (up: bool, first: bool, err: Error)
      requires manager.State() == Flags(false, false)
      modifies manager, manager.disk
      ensures var gets := steps.loadOpts && calls.lock && CanTake(old(manager.disk.status), manager.pid);
              var locks := gets && calls.read && !old(manager.disk.record).disabled
                           && calls.lockRunning && CanTake(old(manager.disk.running), manager.pid);
              var writes := locks && steps.cleanup && steps.create && calls.write;
              && (up <==> writes && calls.unlock && steps.start)
              && manager.disk.record == (if writes then old(manager.disk.record).(pid := manager.pid, created := true)
                                         else old(manager.disk.record))
              && manager.disk.status == (if gets then Returned(manager.pid, calls.unlock) else old(manager.disk.status))
              && manager.disk.running == (if up then Some(manager.pid)
                                          else if locks then Returned(manager.pid, calls.unlockRunning)
                                          else old(manager.disk.running))
      ensures !manager.statusFileLocked
      ensures manager.runningFileLocked <==> up || err.AlreadyRunning?
      ensures up ==> (first <==> !old(manager.disk.record).created)
    {
      if !steps.loadOpts {
        return false, false, Failed;
      }
      var status;
      status, err := manager.LockForStartShim(calls);
      if !err.NoError? {
        return false, false, err;
      }
      if !steps.cleanup || !steps.create {
        var _ := manager.ReleaseLocks(calls.unlock, calls.unlockRunning);
        return false, false, Failed;
      }
      first := !status.created;
      err := manager.UpdateStatus(status.(pid := manager.pid, created := true), calls);
      if err.NoError? {
        err := manager.UnlockStatusFile(calls.unlock);
      }
      if err.NoError? && !steps.start {
        err := Failed;
      }
      up := err.NoError?;
      if !up {
        var _ := manager.ReleaseLocks(calls.unlock, calls.unlockRunning);
      }
    }

    /** The record gets the exit and keeps everything else. */
    method WriteExitStatus(exit: Exit, calls: Calls) returns (err: Error)
      requires !manager.statusFileLocked
      requires Honest(manager.disk.State(), manager.State(), manager.pid)
      modifies manager, manager.disk
      ensures manager.State() == old(manager.State()) && manager.disk.running == old(manager.disk.running)
      ensures var gets := calls.lock && CanTake(old(manager.disk.status), manager.pid);
              && (err.NoError? <==> gets && calls.read && calls.write)
              && manager.disk.status == (if gets then Returned(manager.pid, calls.unlock) else old(manager.disk.status))
      ensures manager.disk.record == if err.NoError? then old(manager.disk.record).(exit := Some(exit))
                                     else old(manager.disk.record)
    {
      var status;
      status, err := manager.LockForUpdateStatus(calls);
      if !err.NoError? {
        return;
      }
      err := manager.UpdateStatus(status.(exit := Some(exit)), calls);
      var _ := manager.UnlockStatusFile(calls.unlock);
    }
  }
}
