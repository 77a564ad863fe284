/**
 The upgrade worker as the program writes it: nested operations on the files of one installation, any of which may be
 the last one before the process dies.
 */
module UpgradeWorkers {
  import opened Basics
  import opened Upgrade

  /** What the worker finds outside the files: each answer of the system it depends on, given in advance. */
  datatype Answers = Answers(
    lockFree: bool,
    owned: bool,
    supervisorAlive: bool,
    signed: bool,
    checksPass: bool,
    mode: Mode,
    adoption: Option<bool>,
    parentLeaves: bool,
    stopped: bool,
    restarted: bool,
    ready: bool,
    stoppedAgain: bool,
    supervisorSeen: bool,
    oldRestarted: bool,
    oldReady: bool,
    stoppedAtLast: bool)

  datatype Point = Point(disk: Disk, worker: Worker)

  ghost predicate IsStep(w: nat, a: Point, b: Point) {
    exists step :: CanStep(a.disk, w, a.worker, step)
      && b == Point(WorkDisk(a.disk, w, a.worker, step), WorkPc(a.disk, w, a.worker, step))
  }

  ghost predicate StepAt(w: nat, trace: seq<Point>, i: nat)
    requires i + 1 < |trace|
  {
    IsStep(w, trace[i], trace[i + 1])
  }

  ghost predicate IsTrace(w: nat, trace: seq<Point>) {
    |trace| > 0 && forall i: nat :: i + 1 < |trace| ==> StepAt(w, trace, i)
  }

  lemma TraceGrows(w: nat, trace: seq<Point>, step: Step)
    requires IsTrace(w, trace)
    requires var last := trace[|trace| - 1]; CanStep(last.disk, w, last.worker, step)
    ensures var last := trace[|trace| - 1];
            IsTrace(w, trace
              + [Point(WorkDisk(last.disk, w, last.worker, step), WorkPc(last.disk, w, last.worker, step))])
  {
    var last := trace[|trace| - 1];
    var longer := trace + [Point(WorkDisk(last.disk, w, last.worker, step), WorkPc(last.disk, w, last.worker, step))];
    forall i: nat | i + 1 < |longer| ensures StepAt(w, longer, i) {
      assert longer[i] == trace[i];
      if i + 1 < |trace| {
        assert StepAt(w, trace, i);
        assert longer[i + 1] == trace[i + 1];
      }
    }
  }

  /** The first step of a trace, taken in the whole installation. */
  lemma FirstStepIsEvent(s: System, w: nat, trace: seq<Point>) returns (ev: Event)
    requires IsTrace(w, trace) && |trace| > 1 && w in s.workers && trace[0] == Point(s.disk, s.workers[w])
    requires LockInv(s) && (s.lock.None? || s.lock == Some(w))
    ensures Possible(s, ev)
    ensures var s' := Apply(s, ev);
            && LockInv(s') && (s'.lock.None? || s'.lock == Some(w))
            && s' == WithWorker(s, w, trace[1].worker).(disk := trace[1].disk)
            && (!trace[1].worker.pc.Gone? ==> w in s'.workers && s'.workers[w] == trace[1].worker)
  {
    assert StepAt(w, trace, 0);
    var step :| CanStep(s.disk, w, s.workers[w], step)
      && trace[1] == Point(WorkDisk(s.disk, w, s.workers[w], step), WorkPc(s.disk, w, s.workers[w], step));
    ev := Work(w, step);
    assert Possible(s, ev);
    LockKept(s, ev);
  }

  /** A worker's trace is a run of the whole installation, as long as nobody else holds the lock. */
  lemma {:induction false} TraceIsRun(s: System, w: nat, trace: seq<Point>) returns (evs: seq<Event>)
    requires IsTrace(w, trace) && w in s.workers && trace[0] == Point(s.disk, s.workers[w]) && !s.workers[w].pc.Gone?
    requires LockInv(s) && (s.lock.None? || s.lock == Some(w))
    ensures RunOf(s, evs)
    ensures var last := trace[|trace| - 1]; After(s, evs) == WithWorker(s, w, last.worker).(disk := last.disk)
    decreases |trace|
  {
    if |trace| == 1 {
      return [];
    }
    var ev := FirstStepIsEvent(s, w, trace);
    if trace[1].worker.pc.Gone? {
      NoStepWhenGone(w, trace);
      evs := [ev];
      assert RunOf(Apply(s, ev), []);
    } else {
      TailIsTrace(w, trace);
      var rest := TraceIsRun(Apply(s, ev), w, trace[1..]);
      evs := [ev] + rest;
      LaterOverwrites(s, w, trace[1], trace[|trace| - 1]);
    }
  }

  lemma TailIsTrace(w: nat, trace: seq<Point>)
    requires IsTrace(w, trace) && |trace| > 1
    ensures IsTrace(w, trace[1..])
  {
    var tail := trace[1..];
    assert forall i: nat :: i + 1 < |tail| ==> (StepAt(w, tail, i) <==> StepAt(w, trace, i + 1));
  }

  lemma LaterOverwrites(s: System, w: nat, a: Point, b: Point)
    requires s.lock.None? || s.lock == Some(w)
    ensures WithWorker(WithWorker(s, w, a.worker).(disk := a.disk), w, b.worker).(disk := b.disk)
         == WithWorker(s, w, b.worker).(disk := b.disk)
  {}

  lemma NoStepWhenGone(w: nat, trace: seq<Point>)
    requires IsTrace(w, trace) && |trace| > 1 && trace[1].worker.pc.Gone?
    ensures |trace| == 2
  {
    assert |trace| > 2 ==> StepAt(w, trace, 1);
  }

  ghost predicate PointInv(w: nat, a: Point) {
    DiskInv(a.disk) && WorkerInv(a.disk, w, a.worker)
  }

  /** Along a trace the invariants of the files and of the worker are kept. */
  lemma {:induction false} TraceKeepsInv(w: nat, trace: seq<Point>, n: nat)
    requires IsTrace(w, trace) && n < |trace| && PointInv(w, trace[0])
    ensures PointInv(w, trace[n])
  {
    if n > 0 {
      TraceKeepsInv(w, trace, n - 1);
      StepAtKeepsInv(w, trace, n);
    }
  }

  lemma StepAtKeepsInv(w: nat, trace: seq<Point>, n: nat)
    requires IsTrace(w, trace) && 0 < n < |trace| && PointInv(w, trace[n - 1])
    ensures PointInv(w, trace[n])
  {
    assert StepAt(w, trace, n - 1);
    PointKeepsInv(w, trace[n - 1], trace[n]);
  }

  lemma PointKeepsInv(w: nat, a: Point, b: Point)
    requires IsStep(w, a, b) && PointInv(w, a)
    ensures PointInv(w, b)
  {
    var step :| CanStep(a.disk, w, a.worker, step)
      && b == Point(WorkDisk(a.disk, w, a.worker, step), WorkPc(a.disk, w, a.worker, step));
    StepKeepsDisk(a.disk, w, a.worker, step);
    StepKeepsWorker(a.disk, w, a.worker, step);
  }

  class UpgradeWorker {
    const w: nat
    /** The files of the installation. */
    var disk: Disk
    // The worker's own variables.
    var mode: Mode
    var signed: Option<Image>
    var verified: Option<Image>
    ghost var pc: Pc
    // How many more file operations it lives for.
    var alive: bool
    var left: nat
    ghost var trace: seq<Point>

    ghost function Self(): Worker
      reads this
    {
      Worker(pc, mode, signed, verified)
    }

    ghost predicate Valid()
      reads this
    {
      w in disk.stages && IsTrace(w, trace) && trace[|trace| - 1] == Point(disk, Self())
    }

    /** A worker that has just been launched. */
    constructor (w: nat, disk: Disk, left: nat)
      requires w in disk.stages
      ensures Valid() && trace == [Point(disk, Fresh)] && alive
      ensures this.w == w && this.disk == disk && this.left == left && Self() == Fresh
    {
      this.w, this.disk, this.left := w, disk, left;
      mode, signed, verified, pc, alive := Manual, None, None, Start, true;
      trace := [Point(disk, Fresh)];
    }

    /** The bookkeeping of one step whose effect has just happened. */
    ghost method Note(before: Disk, self: Worker, step: Step)
      requires w in disk.stages && CanStep(before, w, self, step)
      requires IsTrace(w, trace) && trace[|trace| - 1] == Point(before, self)
      requires disk == WorkDisk(before, w, self, step)
      requires Self() == WorkPc(before, w, self, step).At(pc)
      modifies this`pc, this`trace
      ensures Valid() && pc == WorkPc(before, w, self, step).pc
      ensures old(trace) <= trace
    {
      TraceGrows(w, trace, step);
      pc := WorkPc(before, w, self, step).pc;
      trace := trace + [Point(disk, Self())];
    }

    method Dies() returns (dead: bool)
      requires alive
      modifies this`alive, this`left
      ensures dead == !alive
    {
      dead := left == 0;
      if dead {
        alive := false;
      } else {
        left := left - 1;
      }
    }

    method TestForResult()
      requires Valid() && alive && pc.Start?
      modifies this`pc, this`trace
      ensures Valid() && old(trace) <= trace
      ensures pc == if disk.stages[w].result.Some? then Exiting else WantLock
    {
      ghost var before, self := disk, Self();
      Note(before, self, TestResult);
    }

    method AwaitLock(free: bool)
      requires Valid() && alive && pc.WantLock?
      modifies this`pc, this`trace
      ensures Valid() && old(trace) <= trace
      ensures pc == if free then Locked else Rejecting
    {
      ghost var before, self := disk, Self();
      Note(before, self, if free then TakeLock else GiveUpLock);
    }

    method ReadOtherJournal(owned: bool)
      requires Valid() && alive && pc.Locked? && (owned ==> !disk.Owns(w))
      modifies this`pc, this`trace
      ensures Valid() && old(trace) <= trace
      ensures pc == if owned && disk.journal.None? then Checking else Rejecting
    {
      ghost var before, self := disk, Self();
      Note(before, self, ReadJournal(owned, true));
    }

    method ReadOwnJournal(supervisorAlive: bool)
      requires Valid() && alive && pc.Locked? && disk.Owns(w)
      modifies this`mode, this`signed, this`verified, this`pc, this`trace
      ensures Valid() && old(trace) <= trace
      ensures pc == RollingBack
      ensures verified == None && mode == RecoveryModeOf(disk.journal.value.mode, supervisorAlive)
    {
      ghost var before, self := disk, Self();
      mode := disk.journal.value.mode;
      if mode.Supervisor? && !supervisorAlive {
        mode := Manual;
      }
      signed, verified := None, None;
      Note(before, self, ReadJournal(true, supervisorAlive));
    }

    method VerifyCandidate(ok: bool)
      requires Valid() && alive && pc.Checking?
      modifies this`signed, this`pc, this`trace
      ensures Valid() && old(trace) <= trace
      ensures if ok && disk.stages[w].candidate.Some? then pc == Signed && signed == disk.stages[w].candidate
                else pc == Rejecting
    {
      ghost var before, self := disk, Self();
      if ok && disk.stages[w].candidate.Some? {
        signed := disk.stages[w].candidate;
      }
      Note(before, self, VerifySignatures(ok));
    }

    method DigestCandidate()
      requires Valid() && alive && pc.Signed?
      modifies this`verified, this`pc, this`trace
      ensures Valid() && old(trace) <= trace
      ensures if disk.stages[w].candidate.Some? then pc == Digested && verified == disk.stages[w].candidate
                else pc == Rejecting
    {
      ghost var before, self := disk, Self();
      if disk.stages[w].candidate.Some? {
        verified := disk.stages[w].candidate;
      }
      Note(before, self, TakeDigest);
    }

    method MeasureCandidate(ok: bool, chosen: Mode)
      requires Valid() && alive && pc.Digested? && signed.Some? && verified.Some?
      modifies this`mode, this`disk, this`pc, this`trace
      ensures Valid() && old(trace) <= trace
      ensures disk == old(disk).(approved := disk.approved)
      ensures if ok && Newer(disk, w)
              then pc == Checked && mode == chosen && w in disk.approved
                && disk.approved[w] == Approval(signed.value, verified.value, disk.stages[w].candidate.value)
              else pc == Rejecting
    {
      ghost var before, self := disk, Self();
      var candidate := disk.stages[w].candidate;
      if ok && candidate.Some? && candidate.value.version.NewerThan(disk.target.version) {
        mode := chosen;
        disk := disk.(approved := disk.approved[w := Approval(signed.value, verified.value, candidate.value)]);
      }
      Note(before, self, ReadVersion(ok, chosen));
    }

    /** The three looks at the candidate; nothing changes it in between when this worker is alone with its files. */
    method CheckCandidate(a: Answers) returns (passed: bool)
      requires Valid() && alive && pc.Checking?
      modifies this`mode, this`signed, this`verified, this`disk, this`pc, this`trace
      ensures Valid() && old(trace) <= trace
      ensures disk == old(disk).(approved := disk.approved)
      ensures passed <==> WouldPass(disk, w, a)
      ensures passed ==> pc == Checked && mode == a.mode && verified == disk.stages[w].candidate
      ensures passed ==> w in disk.approved && disk.approved[w].Steady() && Some(disk.approved[w].digested) == verified
      ensures !passed ==> pc == Rejecting
    {
      VerifyCandidate(a.signed);
      if !a.signed || disk.stages[w].candidate.None? {
        return false;
      }
      DigestCandidate();
      MeasureCandidate(a.checksPass, a.mode);
      var candidate := disk.stages[w].candidate.value;
      passed := a.checksPass && candidate.version.NewerThan(disk.target.version);
    }

    method BeginCopy()
      requires Valid() && alive && pc.Checked?
      modifies this`disk, this`pc, this`trace, this`alive, this`left
      ensures Valid() && old(trace) <= trace
      ensures alive ==> pc == Copying
      ensures alive ==> disk == old(disk.SetStage(w, disk.stages[w].(previous := Partial)))
      ensures !alive ==> disk == old(disk) && pc == old(pc)
    {
      var dead := Dies();
      if dead {
        return;
      }
      ghost var before, self := disk, Self();
      disk := disk.SetStage(w, disk.stages[w].(previous := Partial));
      Note(before, self, BeginBackup);
    }

    method EndCopy()
      requires Valid() && alive && pc.Copying?
      modifies this`disk, this`pc, this`trace, this`alive, this`left
      ensures Valid() && old(trace) <= trace
      ensures alive ==> pc == BackedUp
      ensures alive ==> disk == old(disk.SetStage(w, disk.stages[w].(previous := Whole(disk.target))))
      ensures !alive ==> disk == old(disk) && pc == old(pc)
    {
      var dead := Dies();
      if dead {
        return;
      }
      ghost var before, self := disk, Self();
      disk := disk.SetStage(w, disk.stages[w].(previous := Whole(disk.target)));
      Note(before, self, EndBackup);
    }

    method AdoptionFails()
      requires Valid() && alive && pc.BackedUp? && mode.Manual?
      modifies this`pc, this`trace
      ensures Valid() && old(trace) <= trace
      ensures pc == Rejecting
    {
      ghost var before, self := disk, Self();
      Note(before, self, FailAdoption);
    }

    method PutJournal(adopted: bool)
      requires Valid() && alive && pc.BackedUp?
      modifies this`mode, this`disk, this`pc, this`trace, this`alive, this`left
      ensures Valid() && old(trace) <= trace
      ensures alive ==> pc == Journaled
      ensures alive ==> mode == FinalMode(old(Self()), adopted)
      ensures alive ==> disk == old(disk).(journal := Some(Journal(w, mode)))
      ensures !alive ==> mode == old(mode) && disk == old(disk) && pc == old(pc)
    {
      var dead := Dies();
      if dead {
        return;
      }
      ghost var before, self := disk, Self();
      if mode.Manual? && adopted {
        mode := Supervisor;
      }
      disk := disk.(journal := Some(Journal(w, mode)));
      Note(before, self, WriteJournal(adopted));
    }

    method PutAccepted()
      requires Valid() && alive && pc.Journaled?
      modifies this`disk, this`pc, this`trace, this`alive, this`left
      ensures Valid() && old(trace) <= trace
      ensures alive ==> pc == Accepted
      ensures alive ==> disk == old(disk.SetStage(w, disk.stages[w].(accepted := true)))
      ensures !alive ==> disk == old(disk) && pc == old(pc)
    {
      var dead := Dies();
      if dead {
        return;
      }
      ghost var before, self := disk, Self();
      disk := disk.SetStage(w, disk.stages[w].(accepted := true));
      Note(before, self, WriteAccepted);
    }

    method AwaitParent(leaves: bool)
      requires Valid() && alive && pc.Accepted?
      modifies this`pc, this`trace
      ensures Valid() && old(trace) <= trace
      ensures pc == if leaves then Stopping else Finishing(Failed)
    {
      ghost var before, self := disk, Self();
      Note(before, self, if leaves then ParentLeft else ParentStayed);
    }

    method StopPortal(ok: bool)
      requires Valid() && alive && pc.Stopping?
      modifies this`pc, this`trace
      ensures Valid() && old(trace) <= trace
      ensures pc == if ok then Stopped else RollingBack
    {
      ghost var before, self := disk, Self();
      Note(before, self, Stop(ok));
    }

    method RecheckCandidate()
      requires Valid() && alive && pc.Stopped?
      modifies this`pc, this`trace
      ensures Valid() && old(trace) <= trace
      ensures pc == if disk.stages[w].candidate == verified then Rechecked else RollingBack
    {
      ghost var before, self := disk, Self();
      Note(before, self, Recheck);
    }

    method PutNonce()
      requires Valid() && alive && pc.Rechecked?
      modifies this`disk, this`pc, this`trace, this`alive, this`left
      ensures Valid() && old(trace) <= trace
      ensures alive ==> pc == Nonced
      ensures alive ==> disk == old(disk.(nonce := Some(StageNonce(w))))
      ensures !alive ==> disk == old(disk) && pc == old(pc)
    {
      var dead := Dies();
      if dead {
        return;
      }
      ghost var before, self := disk, Self();
      disk := disk.(nonce := Some(StageNonce(w)));
      Note(before, self, WriteNonce);
    }

    method ReplaceTarget()
      requires Valid() && alive && pc.Nonced? && disk.stages[w].candidate.Some?
      modifies this`disk, this`pc, this`trace, this`alive, this`left
      ensures Valid() && old(trace) <= trace
      ensures alive ==> pc == Upgrade.Replaced
      ensures alive ==>
                disk == old(disk.(target := disk.stages[w].candidate.value).SetStage(w,
                  disk.stages[w].(candidate := None)))
      ensures !alive ==> disk == old(disk) && pc == old(pc)
    {
      var dead := Dies();
      if dead {
        return;
      }
      ghost var before, self := disk, Self();
      disk := disk.(target := disk.stages[w].candidate.value).SetStage(w, disk.stages[w].(candidate := None));
      Note(before, self, Replace);
    }

    method RestartNew(ok: bool)
      requires Valid() && alive && pc.Replaced?
      modifies this`disk, this`pc, this`trace, this`alive, this`left
      ensures Valid() && old(trace) <= trace
      ensures alive ==> pc == if mode.Manual? then Finishing(Succeeded) else if ok then Waiting else RollingBack
      ensures alive ==> disk == old(if ok then AskRestart(disk, w, mode) else disk)
      ensures !alive ==> disk == old(disk) && pc == old(pc)
    {
      var dead := Dies();
      if dead {
        return;
      }
      ghost var before, self := disk, Self();
      disk := if ok then AskRestart(disk, w, mode) else disk;
      Note(before, self, Restart(ok));
    }

    method AwaitNew(ok: bool)
      requires Valid() && alive && pc.Waiting?
      modifies this`pc, this`trace
      ensures Valid() && old(trace) <= trace
      ensures pc == if ok then Finishing(Succeeded) else RollingBack
    {
      ghost var before, self := disk, Self();
      Note(before, self, AwaitReady(ok));
    }

    method StopBeforeRestore(ok: bool)
      requires Valid() && alive && pc.RollingBack?
      modifies this`pc, this`trace
      ensures Valid() && old(trace) <= trace
      ensures pc == if ok then RStopped else Rejecting
    {
      ghost var before, self := disk, Self();
      Note(before, self, StopAgain(ok));
    }

    method BeginRestoreCopy()
      requires Valid() && alive && pc.RStopped?
      modifies this`disk, this`pc, this`trace, this`alive, this`left
      ensures Valid() && old(trace) <= trace
      ensures alive ==> pc == RCopying
      ensures alive ==> disk == old(disk.(temporary := Partial))
      ensures !alive ==> disk == old(disk) && pc == old(pc)
    {
      var dead := Dies();
      if dead {
        return;
      }
      ghost var before, self := disk, Self();
      disk := disk.(temporary := Partial);
      Note(before, self, BeginRestore);
    }

    method EndRestoreCopy()
      requires Valid() && alive && pc.RCopying? && disk.stages[w].previous.Whole?
      modifies this`disk, this`pc, this`trace, this`alive, this`left
      ensures Valid() && old(trace) <= trace
      ensures alive ==> pc == RCopied
      ensures alive ==> disk == old(disk.(temporary := disk.stages[w].previous))
      ensures !alive ==> disk == old(disk) && pc == old(pc)
    {
      var dead := Dies();
      if dead {
        return;
      }
      ghost var before, self := disk, Self();
      disk := disk.(temporary := disk.stages[w].previous);
      Note(before, self, EndRestore);
    }

    method PutBackTarget()
      requires Valid() && alive && pc.RCopied? && disk.temporary.Whole?
      modifies this`disk, this`pc, this`trace, this`alive, this`left
      ensures Valid() && old(trace) <= trace
      ensures alive ==> pc == RReplaced
      ensures alive ==> disk == old(disk.(target := disk.temporary.image, temporary := Absent))
      ensures !alive ==> disk == old(disk) && pc == old(pc)
    {
      var dead := Dies();
      if dead {
        return;
      }
      ghost var before, self := disk, Self();
      disk := disk.(target := disk.temporary.image, temporary := Absent);
      Note(before, self, PutBack);
    }

    method PutNonceAndRestart(seen: bool, ok: bool)
      requires Valid() && alive && pc.RReplaced?
      modifies this`disk, this`pc, this`trace, this`alive, this`left
      ensures Valid() && old(trace) <= trace
      ensures alive ==> pc == if mode.Manual? || (mode.Supervisor? && !seen) then Finishing(RolledBack)
                else if ok then RWaiting else RFailed
      ensures alive ==> SameFiles(old(disk), disk)
      ensures alive && mode.StartScript? ==> disk.nonce == Some(StageNonce(w))
      ensures alive && ok && (mode.Supervisor? ==> seen) ==> StartRequested(old(disk), disk, w, mode)
      ensures !alive ==> disk == old(disk) && pc == old(pc)
    {
      var dead := Dies();
      if dead {
        return;
      }
      ghost var before, self := disk, Self();
      if mode.StartScript? {
        disk := disk.(nonce := Some(StageNonce(w)));
      }
      if ok && (mode.Supervisor? ==> seen) {
        disk := AskRestart(disk, w, mode);
      }
      Note(before, self, RestartOld(seen, ok));
    }

    method AwaitPrevious(ok: bool)
      requires Valid() && alive && pc.RWaiting?
      modifies this`pc, this`trace
      ensures Valid() && old(trace) <= trace
      ensures pc == if ok then Finishing(RolledBack) else RFailed
    {
      ghost var before, self := disk, Self();
      Note(before, self, AwaitOld(ok));
    }

    method StopAfterRestore(ok: bool)
      requires Valid() && alive && pc.RFailed?
      modifies this`pc, this`trace
      ensures Valid() && old(trace) <= trace
      ensures pc == if ok then Finishing(RolledBack) else Rejecting
    {
      ghost var before, self := disk, Self();
      Note(before, self, StopFailed(ok));
    }

    method PutResult(outcome: Outcome)
      requires Valid() && alive && pc == Finishing(outcome) && (outcome.Succeeded? ==> w in disk.approved)
      modifies this`disk, this`pc, this`trace, this`alive, this`left
      ensures Valid() && old(trace) <= trace
      ensures alive ==> pc == Closing(outcome)
      ensures alive ==>
                disk == old(disk).SetStage(w,
                  old(disk.stages[w]).(result := Some(outcome))).(committed := disk.committed)
      ensures alive ==> disk.committed == if outcome.Succeeded?
                then old(disk).committed + [Commit(w, old(disk).approved[w])] else old(disk).committed
      ensures !alive ==> disk == old(disk) && pc == old(pc)
    {
      var dead := Dies();
      if dead {
        return;
      }
      ghost var before, self := disk, Self();
      disk := disk.SetStage(w, disk.stages[w].(result := Some(outcome)));
      if outcome.Succeeded? {
        disk := disk.(committed := disk.committed + [Commit(w, disk.approved[w])]);
      }
      Note(before, self, WriteResult);
    }

    method UnlinkJournal(outcome: Outcome)
      requires Valid() && alive && pc == Closing(outcome)
      modifies this`disk, this`pc, this`trace, this`alive, this`left
      ensures Valid() && old(trace) <= trace
      ensures alive ==> pc == if outcome.RolledBack? && verified.Some? then Rejecting else Exiting
      ensures alive ==> disk == old(disk.(journal := None))
      ensures !alive ==> disk == old(disk) && pc == old(pc)
    {
      var dead := Dies();
      if dead {
        return;
      }
      ghost var before, self := disk, Self();
      disk := disk.(journal := None);
      Note(before, self, RemoveJournal);
    }

    method RejectRequest()
      requires Valid() && alive && pc.Rejecting?
      modifies this`disk, this`pc, this`trace, this`alive, this`left
      ensures Valid() && old(trace) <= trace
      ensures alive ==> pc == if disk.stages[w].result.Some? then Exiting else Gone
      ensures alive ==>
                disk == old(if !disk.stages[w].accepted && !disk.Owns(w)
                  then disk.SetStage(w, disk.stages[w].(result := Some(Failed))) else disk)
      ensures !alive ==> disk == old(disk) && pc == old(pc)
    {
      var dead := Dies();
      if dead {
        return;
      }
      ghost var before, self := disk, Self();
      disk := if !disk.stages[w].accepted && !disk.Owns(w)
        then disk.SetStage(w, disk.stages[w].(result := Some(Failed))) else disk;
      Note(before, self, Reject);
    }

    method LeaveNoJournal()
      requires Valid() && alive && pc.Exiting?
      modifies this`disk, this`pc, this`trace, this`alive, this`left
      ensures Valid() && old(trace) <= trace
      ensures alive ==> pc == Gone
      ensures alive ==> disk == old(if disk.Owns(w) then disk.(journal := None) else disk)
      ensures !alive ==> disk == old(disk) && pc == old(pc)
    {
      var dead := Dies();
      if dead {
        return;
      }
      ghost var before, self := disk, Self();
      disk := if disk.Owns(w) then disk.(journal := None) else disk;
      Note(before, self, Exit);
    }

    // ---------------------------------------------------------------- the program's own functions

    /** The durable outcome comes before the journal goes. */
    method Finish(outcome: Outcome)
      requires Valid() && alive && pc == Finishing(outcome) && (outcome.Succeeded? ==> w in disk.approved)
      modifies this`disk, this`pc, this`trace, this`alive, this`left
      ensures Valid() && old(trace) <= trace
      ensures alive ==> pc == if outcome.RolledBack? && verified.Some? then Rejecting else Exiting
      ensures alive ==> disk.journal.None? && disk.target == old(disk).target
      ensures alive ==> disk.stages == old(disk).stages[w := old(disk.stages[w]).(result := Some(outcome))]
      ensures alive ==> disk.committed ==
                        if outcome.Succeeded? then old(disk).committed + [Commit(w, old(disk).approved[w])]
                        else old(disk).committed
    {
      PutResult(outcome);
      if alive {
        UnlinkJournal(outcome);
      }
    }

    /** Copies the backup to a fresh file and renames that over the target. */
    method RestoreFile()
      requires Valid() && alive && pc == RStopped && disk.stages[w].previous.Whole?
      modifies this`disk, this`pc, this`trace, this`alive, this`left
      ensures Valid() && old(trace) <= trace
      ensures alive ==>
                pc == RReplaced && disk == old(disk).(target := old(disk).stages[w].previous.image, temporary := Absent)
    {
      BeginRestoreCopy();
      if !alive {
        return;
      }
      EndRestoreCopy();
      if alive {
        PutBackTarget();
      }
    }

    /** Starts the previous executable again; when that was tried and failed, everything is stopped, which may raise. */
    method RestartRestored(a: Answers) returns (raised: bool)
      requires Valid() && alive && pc == RReplaced
      modifies this`disk, this`pc, this`trace, this`alive, this`left
      ensures Valid() && old(trace) <= trace
      ensures alive ==> (raised <==> StopsAtLast(mode, a) && !a.stoppedAtLast)
      ensures alive ==> pc == (if raised then Rejecting else Finishing(RolledBack)) && SameFiles(old(disk), disk)
      ensures alive && mode.StartScript? ==> disk.nonce == Some(StageNonce(w))
      ensures alive && a.oldRestarted && (mode.Supervisor? ==> a.supervisorSeen) ==>
                StartRequested(old(disk), disk, w, mode)
    {
      raised := false;
      PutNonceAndRestart(a.supervisorSeen, a.oldRestarted);
      if !alive || mode.Manual? || (mode.Supervisor? && !a.supervisorSeen) {
        return;
      }
      if a.oldRestarted {
        AwaitPrevious(a.oldReady);
        if a.oldReady {
          return;
        }
      }
      StopAfterRestore(a.stoppedAtLast);
      raised := !a.stoppedAtLast;
    }

    /** Puts the backup back; `raised` when Portal could not be stopped, which leaves the journal for the next
        worker. */
    method Restore(a: Answers) returns (raised: bool)
      requires Valid() && alive && pc == RollingBack && disk.stages[w].previous.Whole?
      modifies this`disk, this`pc, this`trace, this`alive, this`left
      ensures Valid() && old(trace) <= trace
      ensures alive ==> (raised <==> !RestoreGoes(mode, a))
      ensures alive ==> pc == if raised then Rejecting else Finishing(RolledBack)
      ensures alive ==>
                disk.target == if a.stoppedAgain then old(disk).stages[w].previous.image else old(disk).target
      ensures alive ==> disk.stages == old(disk).stages && disk.journal == old(disk).journal
      ensures alive ==> disk.committed == old(disk).committed
      ensures alive && a.stoppedAgain && mode.StartScript? ==> disk.nonce == Some(StageNonce(w))
      ensures alive && a.stoppedAgain && a.oldRestarted && (mode.Supervisor? ==> a.supervisorSeen) ==>
                StartRequested(old(disk), disk, w, mode)
    {
      raised := false;
      StopBeforeRestore(a.stoppedAgain);
      if !a.stoppedAgain {
        return true;
      }
      RestoreFile();
      if alive {
        raised := RestartRestored(a);
      }
    }

    /** The last look at the candidate, and the rename. */
    method SwapExecutable() returns (failed: bool)
      requires Valid() && alive && pc == Stopped && verified.Some?
      modifies this`disk, this`pc, this`trace, this`alive, this`left
      ensures Valid() && old(trace) <= trace
      ensures alive ==> pc == if failed then RollingBack else Upgrade.Replaced
      ensures alive ==> (failed <==> old(disk).stages[w].candidate != verified)
      ensures alive && failed ==> disk == old(disk)
      ensures alive && !failed ==> disk == old(disk).(nonce := Some(StageNonce(w)), target := verified.value)
                                            .SetStage(w, old(disk).stages[w].(candidate := None))
    {
      failed := false;
      RecheckCandidate();
      if disk.stages[w].candidate != verified {
        return true;
      }
      PutNonce();
      if alive {
        ReplaceTarget();
      }
    }

    /** From stopping Portal to the new one's readiness; `failed` asks for the rollback. */
    method ReplaceExecutable(a: Answers) returns (failed: bool)
      requires Valid() && alive && pc == Stopping && verified.Some?
      modifies this`disk, this`pc, this`trace, this`alive, this`left
      ensures Valid() && old(trace) <= trace
      ensures alive ==> pc == if failed then RollingBack else Finishing(Succeeded)
      ensures alive && !failed ==> Some(disk.target) == verified
      ensures alive && (!a.stopped || old(disk).stages[w].candidate != verified) ==> disk == old(disk)
      ensures alive ==> disk.journal == old(disk).journal && disk.approved == old(disk).approved
      ensures alive ==> disk.committed == old(disk).committed
      ensures alive ==>
                disk.stages == old(disk).stages[w := old(disk).stages[w].(candidate := disk.stages[w].candidate)]
      ensures alive ==> (failed <==> !(Works(mode, a) && old(disk).stages[w].candidate == verified))
      ensures alive && !failed && !mode.Manual? ==>
                disk.nonce == Some(StageNonce(w)) && StartRequested(old(disk), disk, w, mode)
    {
      failed := false;
      StopPortal(a.stopped);
      if !a.stopped {
        return true;
      }
      failed := SwapExecutable();
      if !alive || failed {
        return;
      }
      RestartNew(a.restarted);
      if !alive || mode.Manual? {
        return;
      }
      if !a.restarted {
        return true;
      }
      AwaitNew(a.ready);
      failed := !a.ready;
    }

    method CopyTarget()
      requires Valid() && alive && pc == Checked
      modifies this`disk, this`pc, this`trace, this`alive, this`left
      ensures Valid() && old(trace) <= trace
      ensures alive ==>
                pc == BackedUp
                  && disk == old(disk).SetStage(w, old(disk).stages[w].(previous := Whole(old(disk).target)))
    {
      BeginCopy();
      if alive {
        EndCopy();
      }
    }

    /** Complete backup, then journal, then acceptance; `going` when all of it was done. */
    method BackUp(a: Answers) returns (going: bool)
      requires Valid() && alive && pc == Checked
      modifies this`disk, this`pc, this`trace, this`alive, this`left, this`mode
      ensures Valid() && old(trace) <= trace
      ensures going ==> alive
      ensures alive ==> disk.target == old(disk).target && disk.approved == old(disk).approved
      ensures alive ==> disk.committed == old(disk).committed
      ensures alive && !going ==> pc == Rejecting && disk.journal == old(disk).journal
      ensures alive && !going ==> disk.stages[w].(previous := Absent) == old(disk).stages[w].(previous := Absent)
      ensures alive ==> disk.stages == old(disk).stages[w := disk.stages[w]]
      ensures going ==>
                && pc == Upgrade.Accepted && disk.journal == Some(Journal(w, mode))
                && mode == if old(mode).Manual? && a.adoption == Some(true) then Supervisor else old(mode)
      ensures going ==>
                disk.stages == old(disk).stages[w :=
                  old(disk).stages[w].(previous := Whole(old(disk).target), accepted := true)]
      ensures alive ==> (going <==> a.adoption.Some? || !old(mode).Manual?)
    {
      going := false;
      CopyTarget();
      if !alive {
        return;
      }
      if mode.Manual? && a.adoption.None? {
        AdoptionFails();
        return;
      }
      PutJournal(a.adoption == Some(true));
      if !alive {
        return;
      }
      PutAccepted();
      going := alive;
    }

    /** Checks, backup, journal, acceptance; `going` when all of it was done. */
    method Prepare(a: Answers) returns (going: bool)
      requires Valid() && alive && pc == Checking
      modifies this`disk, this`pc, this`trace, this`alive, this`left, this`mode, this`signed, this`verified
      ensures Valid() && old(trace) <= trace
      ensures going ==> alive
      ensures alive ==> disk.target == old(disk).target && disk.committed == old(disk).committed
      ensures alive && !going ==> pc == Rejecting && disk.journal == old(disk).journal
      ensures alive && !going ==> disk.stages[w].(previous := Absent) == old(disk).stages[w].(previous := Absent)
      ensures alive ==> disk.stages == old(disk).stages[w := disk.stages[w]]
      ensures going ==> pc == Upgrade.Accepted && verified.Some? && verified == old(disk).stages[w].candidate
      ensures going ==> disk.journal == Some(Journal(w, mode)) && mode == AttemptMode(a)
      ensures going ==>
                disk.stages == old(disk).stages[w :=
                  old(disk).stages[w].(previous := Whole(old(disk).target), accepted := true)]
      ensures going ==> w in disk.approved && disk.approved[w].Steady() && Some(disk.approved[w].digested) == verified
      ensures alive ==> (going <==> Passes(old(disk), w, a))
    {
      going := false;
      var passed := CheckCandidate(a);
      if passed {
        going := BackUp(a);
      }
    }

    lemma BackupIsComplete()
      requires Valid() && PointInv(w, trace[0]) && pc == RollingBack
      ensures disk.stages[w].previous == Whole(disk.Installed())
    {
      TraceKeepsInv(w, trace, |trace| - 1);
    }

    lemma FilesAreSafe()
      requires Valid() && PointInv(w, trace[0])
      ensures DiskInv(disk)
    {
      TraceKeepsInv(w, trace, |trace| - 1);
    }

    lemma HasOutcome()
      requires Valid() && PointInv(w, trace[0])
      ensures pc.Exiting? ==> disk.stages[w].result.Some?
    {
      TraceKeepsInv(w, trace, |trace| - 1);
    }

    /** An own journal without outcome: roll back, whatever the interrupted attempt had reached. */
    method Recover(a: Answers) returns (raised: bool)
      requires Valid() && alive && pc == Locked && disk.Owns(w) && PointInv(w, trace[0])
      modifies this`disk, this`pc, this`trace, this`alive, this`left, this`mode, this`signed, this`verified
      ensures Valid() && old(trace) <= trace
      ensures alive ==> pc == if raised then Rejecting else Exiting
      ensures alive ==> (raised <==> !RestoreGoes(RecoveryMode(old(disk), a), a))
      ensures alive ==> disk.committed == old(disk).committed
      ensures alive && !raised ==>
                && disk.journal.None? && disk.stages[w].result == Some(RolledBack)
                && disk.target == old(disk).Installed() && disk.stages == old(disk).stages[w := disk.stages[w]]
      ensures alive && raised ==> disk.journal == old(disk).journal && disk.stages == old(disk).stages
    {
      ReadOwnJournal(a.supervisorAlive);
      BackupIsComplete();
      raised := Restore(a);
      if alive && !raised {
        Finish(RolledBack);
      }
    }

    /** From acceptance to the outcome, by what the world answers; `raised` also after a completed rollback. */
    method Conduct(a: Answers) returns (raised: bool)
      requires Valid() && alive && pc == Upgrade.Accepted && verified.Some? && w in disk.approved
               && disk.stages[w].previous == Whole(disk.target)
      modifies this`disk, this`pc, this`trace, this`alive, this`left
      ensures Valid() && old(trace) <= trace
      ensures alive ==> pc == if raised then Rejecting else Exiting
      ensures alive && !a.parentLeaves ==>
                !raised && Concludes(old(disk), disk, w, Failed) && disk.target == old(disk).target
      ensures alive && a.parentLeaves && Works(mode, a) && old(disk).stages[w].candidate == verified ==>
                !raised && Concludes(old(disk), disk, w, Succeeded) && Some(disk.target) == verified
      ensures alive && a.parentLeaves && !(Works(mode, a) && old(disk).stages[w].candidate == verified)
              && RestoreGoes(mode, a) ==>
                raised && Concludes(old(disk), disk, w, RolledBack) && disk.target == old(disk).target
      ensures alive && a.parentLeaves && !(Works(mode, a) && old(disk).stages[w].candidate == verified)
              && !RestoreGoes(mode, a) ==>
                raised && IsStuck(old(disk), disk, w)
    {
      raised := false;
      AwaitParent(a.parentLeaves);
      if !a.parentLeaves {
        Finish(Failed);
        return;
      }
      raised := Exchange(a);
    }

    /** Replaces the executable and commits that, or rolls back and raises. */
    method Exchange(a: Answers) returns (raised: bool)
      requires Valid() && alive && pc == Stopping && verified.Some? && w in disk.approved
               && disk.stages[w].previous == Whole(disk.target)
      modifies this`disk, this`pc, this`trace, this`alive, this`left
      ensures Valid() && old(trace) <= trace
      ensures alive ==> pc == if raised then Rejecting else Exiting
      ensures alive ==> (raised <==> !(Works(mode, a) && old(disk).stages[w].candidate == verified))
      ensures alive && !raised ==> Concludes(old(disk), disk, w, Succeeded) && Some(disk.target) == verified
      ensures alive && raised && RestoreGoes(mode, a) ==>
                Concludes(old(disk), disk, w, RolledBack) && disk.target == old(disk).target
      ensures alive && raised && !RestoreGoes(mode, a) ==> IsStuck(old(disk), disk, w)
    {
      raised := ReplaceExecutable(a);
      if !alive {
        return;
      }
      if raised {
        RollBack(a);
      } else {
        Finish(Succeeded);
      }
    }

    /** The old bytes are back and the outcome is durable before the journal goes, unless Portal cannot be stopped. */
    method RollBack(a: Answers)
      requires Valid() && alive && pc == RollingBack && verified.Some? && disk.stages[w].previous.Whole?
      modifies this`disk, this`pc, this`trace, this`alive, this`left
      ensures Valid() && old(trace) <= trace
      ensures alive ==> pc == Rejecting && disk.committed == old(disk).committed
      ensures alive && RestoreGoes(mode, a) ==>
                && disk.journal.None? && disk.target == old(disk).stages[w].previous.image
                && disk.stages == old(disk).stages[w := old(disk).stages[w].(result := Some(RolledBack))]
      ensures alive && !RestoreGoes(mode, a) ==> disk.journal == old(disk).journal && disk.stages == old(disk).stages
    {
      var stuck := Restore(a);
      if alive && !stuck {
        Finish(RolledBack);
      }
    }

    /** No journal: the checks refuse, which changes nothing but the backup, or one attempt is made. */
    method Attempt(a: Answers) returns (raised: bool)
      requires Valid() && alive && pc == Checking && disk.stages[w].result.None? && disk.journal.None?
      modifies this`disk, this`pc, this`trace, this`alive, this`left, this`mode, this`signed, this`verified
      ensures Valid() && old(trace) <= trace
      ensures alive ==> pc == if raised then Rejecting else Exiting
      ensures alive && !Passes(old(disk), w, a) ==> raised && IsRefused(old(disk), disk, w)
      ensures alive && Passes(old(disk), w, a) ==>
                && AttemptEnds(old(disk), disk, w, a) && disk.stages[w].accepted
                && (raised <==> a.parentLeaves && !Works(AttemptMode(a), a))
    {
      var going := Prepare(a);
      raised := !going;
      if going {
        raised := Conduct(a);
      }
    }

    method Run(a: Answers) returns (raised: bool)
      requires Valid() && alive && Self() == Fresh && PointInv(w, trace[0])
      modifies this`disk, this`pc, this`trace, this`alive, this`left, this`mode, this`signed, this`verified
      ensures Valid() && old(trace) <= trace
      ensures alive ==> pc == if raised then Rejecting else Exiting
      ensures alive ==> RunEnds(old(disk), disk, w, a, raised)
    {
      raised := false;
      TestForResult();
      if disk.stages[w].result.Some? {
        return;
      }
      AwaitLock(a.lockFree);
      if !a.lockFree {
        return true;
      }
      if a.owned && disk.Owns(w) {
        raised := Recover(a);
        return;
      }
      ReadOtherJournal(a.owned);
      if !a.owned || disk.journal.Some? {
        return true;
      }
      raised := Attempt(a);
    }

    /** The whole process, for every state it starts in and every answer it gets. However far it comes, the files are
        safe. If it comes to its end: with an outcome it only clears its journal; it recovers its own transaction; it
        is refused by lock, owner, foreign journal or checks, which fails the stage and leaves the rest; or its attempt
        ends as the answers have it. */
    method MainProgram(a: Answers)
      requires Valid() && alive && trace == [Point(disk, Fresh)] && DiskInv(disk)
      modifies this`disk, this`pc, this`trace, this`alive, this`left, this`mode, this`signed, this`verified
      ensures Valid() && old(trace) <= trace && DiskInv(disk)
      ensures alive ==> pc == Gone && (disk.stages[w].result.Some? ==> !disk.Owns(w))
      ensures alive ==> ProgramEnds(old(disk), disk, w, a)
    {
      assert PointInv(w, trace[0]);
      RunAndClose(a);
      FilesAreSafe();
    }

    method RunAndClose(a: Answers)
      requires Valid() && alive && Self() == Fresh && PointInv(w, trace[0]) && SettledIfAccepted(disk, w)
      modifies this`disk, this`pc, this`trace, this`alive, this`left, this`mode, this`signed, this`verified
      ensures Valid() && old(trace) <= trace
      ensures alive ==> pc == Gone && (disk.stages[w].result.Some? ==> !disk.Owns(w))
      ensures alive ==> ProgramEnds(old(disk), disk, w, a)
    {
      ghost var before := disk;
      var raised := Run(a);
      if !alive {
        return;
      }
      HasOutcome();
      ghost var run := disk;
      Close(raised);
      if alive {
        EndOfProgram(before, run, disk, w, a, raised);
      }
    }

    /** The end of the process: a refusal becomes an outcome, and with an outcome an own journal goes. */
    method Close(raised: bool)
      requires Valid() && alive && pc == (if raised then Rejecting else Exiting)
                 && (!raised ==> disk.stages[w].result.Some?)
      modifies this`disk, this`pc, this`trace, this`alive, this`left
      ensures Valid() && old(trace) <= trace
      ensures alive ==> pc == Gone
      ensures alive ==> disk == Closed(old(disk), w, raised)
    {
      if raised {
        RejectRequest();
        if !alive {
          return;
        }
      }
      if disk.stages[w].result.Some? {
        LeaveNoJournal();
      }
    }
  }

  /** The candidate passes all three looks, if it holds still. */
  predicate WouldPass(d: Disk, w: nat, a: Answers)
    requires w in d.stages
  {
    a.signed && a.checksPass && Newer(d, w)
  }

  /** The old Portal was to be started, and was not seen stable. */
  predicate StopsAtLast(mode: Mode, a: Answers) {
    !mode.Manual? && (mode.Supervisor? ==> a.supervisorSeen) && !(a.oldRestarted && a.oldReady)
  }

  // ---------------------------------------------------------------- endings, in terms of the answers

  /** The files after the end of the process: a refusal that leaves no journal becomes a failure. */
  function Closed(d: Disk, w: nat, raised: bool): Disk
    requires w in d.stages
  {
    if raised && !d.stages[w].accepted && !d.Owns(w) then d.SetStage(w, d.stages[w].(result := Some(Failed)))
    else if d.stages[w].result.Some? && d.Owns(w) then d.(journal := None)
    else d
  }

  /** An accepted stage without outcome is the one in the journal. */
  predicate SettledIfAccepted(d: Disk, w: nat) {
    w in d.stages && d.stages[w].accepted ==> d.stages[w].result.Some? || d.Owns(w)
  }

  /** What the run leaves before the process ends, case by case. */
  ghost predicate RunEnds(d: Disk, run: Disk, w: nat, a: Answers, raised: bool) {
    && w in d.stages && w in run.stages
    && (d.stages[w].result.Some? ==> !raised && run == d)
    && (d.stages[w].result.None? && !(a.lockFree && a.owned) ==> raised && run == d)
    && (InTransaction(d, w) && a.lockFree && a.owned ==>
          RecoveryEnds(d, run, w, a) && (raised <==> !RestoreGoes(RecoveryMode(d, a), a)))
    && (d.stages[w].result.None? && d.journal.Some? && !d.Owns(w) ==> raised && run == d)
    && (MayTry(d, w, a) && !Passes(d, w, a) ==> raised && IsRefused(d, run, w))
    && (MayTry(d, w, a) && Passes(d, w, a) ==>
          && AttemptEnds(d, run, w, a) && run.stages[w].accepted
          && (raised <==> a.parentLeaves && !Works(AttemptMode(a), a)))
  }

  /** What the process leaves at its end, for every state it starts in and every answer it gets. */
  ghost predicate ProgramEnds(d: Disk, d': Disk, w: nat, a: Answers) {
    && w in d.stages && w in d'.stages
    // With an outcome it only clears its own journal.
    && (d.stages[w].result.Some? ==> d' == d.(journal := if d.Owns(w) then None else d.journal))
    // It recovers its own transaction, if it gets to it.
    && (InTransaction(d, w) && !(a.lockFree && a.owned) ==> d' == d)
    && (InTransaction(d, w) && a.lockFree && a.owned ==> RecoveryEnds(d, d', w, a))
    // Lock, owner, a foreign journal or the checks refuse it: the stage has failed, and everything else stands.
    && (d.stages[w].result.None? && !d.Owns(w) && !(MayTry(d, w, a) && Passes(d, w, a)) ==>
          && d'.stages[w].result == Some(Failed)
          && IsRefused(d, d'.SetStage(w, d'.stages[w].(result := None)), w))
    // Otherwise it makes its attempt.
    && (MayTry(d, w, a) && Passes(d, w, a) ==> AttemptEnds(d, d', w, a))
  }

  lemma EndOfProgram(d: Disk, run: Disk, d': Disk, w: nat, a: Answers, raised: bool)
    requires SettledIfAccepted(d, w) && RunEnds(d, run, w, a, raised) && d' == Closed(run, w, raised)
    ensures ProgramEnds(d, d', w, a)
  {
    if d.stages[w].result.None? && !d.Owns(w) && !(MayTry(d, w, a) && Passes(d, w, a)) {
      RefusalFails(d, run, w);
    }
  }

  lemma RefusalFails(d: Disk, run: Disk, w: nat)
    requires w in d.stages && SettledIfAccepted(d, w) && d.stages[w].result.None? && !d.Owns(w)
    requires run == d || IsRefused(d, run, w)
    ensures var d' := Closed(run, w, true);
            IsRefused(d, d'.SetStage(w, d'.stages[w].(result := None)), w) && d'.stages[w].result == Some(Failed)
  {}

  /** The checks pass, and if nobody else starts Portal a running one can be adopted. */
  predicate Passes(d: Disk, w: nat, a: Answers)
    requires w in d.stages
  {
    WouldPass(d, w, a) && (a.adoption.Some? || !a.mode.Manual?)
  }

  /** The new executable is put in place, started and seen ready. */
  predicate Works(mode: Mode, a: Answers) {
    a.stopped && (mode.Manual? || (a.restarted && a.ready))
  }

  /** The rollback comes to its end: Portal can be stopped, and again if the old executable does not come up. */
  predicate RestoreGoes(mode: Mode, a: Answers) {
    a.stoppedAgain && (StopsAtLast(mode, a) ==> a.stoppedAtLast)
  }

  function AttemptMode(a: Answers): Mode {
    if a.mode.Manual? && a.adoption == Some(true) then Supervisor else a.mode
  }

  function RecoveryModeOf(mode: Mode, supervisorAlive: bool): Mode {
    if mode.Supervisor? && !supervisorAlive then Manual else mode
  }

  function RecoveryMode(d: Disk, a: Answers): Mode
    requires d.journal.Some?
  {
    RecoveryModeOf(d.journal.value.mode, a.supervisorAlive)
  }

  /** Nobody else is at it, and the stage has no outcome. */
  predicate MayTry(d: Disk, w: nat, a: Answers)
    requires w in d.stages
  {
    a.lockFree && a.owned && d.journal.None? && d.stages[w].result.None?
  }

  /** Somebody is asked to start Portal in the transaction's own way. */
  predicate StartRequested(d: Disk, d': Disk, w: nat, mode: Mode) {
    && (mode.Supervisor? ==>
          d'.command == Some(Command(w, d.nextCommand, d.session)) && d'.nextCommand == d.nextCommand + 1)
    && (mode.StartScript? && d'.nonce.Some? ==> d'.nonce.value in d'.issued)
  }

  /** The outcome is on file and the journal is gone; only a success commits. */
  ghost predicate Concludes(d: Disk, d': Disk, w: nat, outcome: Outcome) {
    && w in d.stages && w in d'.stages && d'.journal.None? && d'.stages[w].result == Some(outcome)
    && d'.stages == d.stages[w := d'.stages[w]] && d'.stages[w].accepted == d.stages[w].accepted
    && d'.stages[w].previous == d.stages[w].previous
    && d'.committed == if outcome.Succeeded? && w in d.approved then d.committed + [Commit(w, d.approved[w])]
                       else d.committed
  }

  /** No outcome: journal and backup stay for the next worker. */
  ghost predicate IsStuck(d: Disk, d': Disk, w: nat) {
    && w in d.stages && w in d'.stages && d'.journal == d.journal && d'.stages[w].result == d.stages[w].result
    && d'.stages == d.stages[w := d'.stages[w]] && d'.stages[w].accepted == d.stages[w].accepted
    && d'.stages[w].previous == d.stages[w].previous && d'.committed == d.committed
  }

  /** A refusal touches nothing but the stage's own backup. */
  ghost predicate IsRefused(d: Disk, d': Disk, w: nat) {
    && w in d.stages && w in d'.stages
    && d'.journal == d.journal && d'.target == d.target && d'.committed == d.committed
    && d'.stages[w].(previous := Absent) == d.stages[w].(previous := Absent)
    && d'.stages == d.stages[w := d'.stages[w]]
  }

  /** How an attempt that was let through ends. */
  ghost predicate AttemptEnds(d: Disk, d': Disk, w: nat, a: Answers)
    requires w in d.stages && d.stages[w].candidate.Some?
  {
    var candidate, mode := d.stages[w].candidate.value, AttemptMode(a);
    w in d'.stages && d'.stages == d.stages[w := d'.stages[w]] &&
    if !a.parentLeaves then
      d'.journal.None? && d'.stages[w].result == Some(Failed) && d'.target == d.target && d'.committed == d.committed
    else if Works(mode, a) then
      && d'.journal.None? && d'.stages[w].result == Some(Succeeded) && d'.target == candidate
      && d'.committed == d.committed + [Commit(w, Approval(candidate, candidate, candidate))]
    else if RestoreGoes(mode, a) then
      && d'.journal.None? && d'.stages[w].result == Some(RolledBack)
      && d'.target == d.target && d'.committed == d.committed
    else
      && d'.journal == Some(Journal(w, mode)) && d'.stages[w].result.None?
      && d'.stages[w].previous == Whole(d.target) && d'.committed == d.committed
  }

  /** How the recovery of an interrupted transaction ends. */
  ghost predicate RecoveryEnds(d: Disk, d': Disk, w: nat, a: Answers)
    requires w in d.stages && d.journal.Some?
  {
    && w in d'.stages && d'.committed == d.committed && d'.stages == d.stages[w := d'.stages[w]]
    && if RestoreGoes(RecoveryMode(d, a), a) then
         d'.journal.None? && d'.stages[w].result == Some(RolledBack) && d'.target == d.Installed()
       else d'.journal == d.journal && d'.stages == d.stages
  }
}
