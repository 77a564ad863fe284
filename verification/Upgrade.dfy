/**
 The crash-recoverable replacement of the installed executable by a staged candidate: backup, journal, atomic rename,
 durable result, rollback. Every file operation is one step, a worker may die between any two of them, and workers of
 several stages may be alive at once.
 */
module Upgrade {
  import opened Basics

  datatype Version = Version(major: nat, minor: nat, patch: nat)
  {
    predicate NewerThan(other: Version) {
      || major > other.major
      || (major == other.major && minor > other.minor)
      || (major == other.major && minor == other.minor && patch > other.patch)
    }
  }

  /** The complete bytes of an executable, and the version they report. */
  datatype Image = Image(version: Version, bytes: seq<int>)

  /** A file written by copying: it can be found half written. */
  datatype Copy = Absent | Partial | Whole(image: Image)

  datatype Mode = LaunchAgent | Supervisor | StartScript | Manual

  datatype Outcome = Succeeded | Failed | RolledBack

  datatype Stage = Stage(candidate: Option<Image>, previous: Copy, accepted: bool, result: Option<Outcome>)

  datatype Journal = Journal(stage: nat, mode: Mode)

  /** A request to the supervisor `owner` to start Portal within one transaction. */
  datatype Command = Command(stage: nat, id: nat, owner: nat)

  /** The launch nonce on file: written by a stage, by a supervisor that starts, or for an ordinary launch. */
  datatype Nonce = StageNonce(stage: nat) | SessionNonce(token: nat) | LaunchNonce(launch: nat)

  /** What the checks looked at: the image whose signature was verified, the one that was hashed, and the one whose
      version was read. They are read one after the other. */
  datatype Approval = Approval(signed: Image, digested: Image, measured: Image)
  {
    predicate Steady() {
      signed == digested && measured == digested
    }
  }

  datatype Commit = Commit(stage: nat, approval: Approval)
  {
    function Image(): Image {
      approval.digested
    }
  }

  /** The files of one installation. `session` is the token of the supervisor recorded last. The last four fields are
      history: the image first installed, the images whose success is durable, what each stage's checks passed last, and
      the launch nonces given to start scripts. */
  datatype Disk = Disk(
    target: Image,
    temporary: Copy,
    journal: Option<Journal>,
    nonce: Option<Nonce>,
    session: nat,
    command: Option<Command>,
    nextCommand: nat,
    stages: map<nat, Stage>,
    initial: Image,
    committed: seq<Commit>,
    approved: map<nat, Approval>,
    issued: set<Nonce>)
  {
    /** What ought to be installed: the last image that durably succeeded. */
    function Installed(): Image {
      if committed == [] then initial else committed[|committed| - 1].Image()
    }

    predicate Owns(w: nat) {
      journal.Some? && journal.value.stage == w
    }

    function SetStage(w: nat, stage: Stage): Disk {
      this.(stages := stages[w := stage])
    }
  }

  datatype Pc =
    // Without the lock.
    | Start | WantLock | Rejecting | Exiting | Gone
    // With the lock: up to the replacement.
    | Locked | Checking | Signed | Digested | Checked | Copying | BackedUp | Journaled | Accepted | Stopping | Stopped
    | Rechecked | Nonced
    | Replaced | Waiting
    // Rolling back.
    | RollingBack | RStopped | RCopying | RCopied | RReplaced | RWaiting | RFailed
    // Ending.
    | Finishing(outcome: Outcome) | Closing(outcome: Outcome)
  {
    predicate HoldsLock() {
      !Start? && !WantLock? && !Rejecting? && !Exiting? && !Gone?
    }

    /** After the worker has stopped the running Portal and before it has put the new executable in place. */
    predicate InWindow() {
      Stopped? || Rechecked? || Nonced?
    }
  }

  /** `signed` is the image whose signature the worker checked, `verified` the image it hashed; a worker that recovers
      an interrupted transaction has none. */
  datatype Worker = Worker(pc: Pc, mode: Mode, signed: Option<Image>, verified: Option<Image>)
  {
    function At(pc: Pc): Worker {
      this.(pc := pc)
    }
  }

  const Fresh := Worker(Start, Manual, None, None)

  datatype Step =
    | TestResult | TakeLock | GiveUpLock
    | ReadJournal(owned: bool, supervisorAlive: bool)
    | VerifySignatures(ok: bool) | TakeDigest | ReadVersion(ok: bool, mode: Mode) | BeginBackup | EndBackup
    | FailAdoption | WriteJournal(adopted: bool)
    | WriteAccepted | ParentStayed | ParentLeft
    | Stop(ok: bool) | Recheck | WriteNonce | Replace | Restart(ok: bool) | AwaitReady(ok: bool)
    | StopAgain(ok: bool) | BeginRestore | EndRestore | PutBack | RestartOld(seen: bool, ok: bool)
    | AwaitOld(ok: bool) | StopFailed(ok: bool)
    | WriteResult | RemoveJournal | Reject | Exit

  // ---------------------------------------------------------------- one step of one worker

  predicate CanStep(d: Disk, w: nat, k: Worker, step: Step) {
    w in d.stages &&
    match step
    case TestResult => k.pc.Start?
    case TakeLock => k.pc.WantLock?
    case GiveUpLock => k.pc.WantLock?
    case ReadJournal(_, _) => k.pc.Locked?
    case VerifySignatures(_) => k.pc.Checking?
    case TakeDigest => k.pc.Signed?
    case ReadVersion(_, _) => k.pc.Digested? && k.signed.Some? && k.verified.Some?
    case BeginBackup => k.pc.Checked?
    case EndBackup => k.pc.Copying?
    case FailAdoption => k.pc.BackedUp? && k.mode.Manual?
    case WriteJournal(_) => k.pc.BackedUp?
    case WriteAccepted => k.pc.Journaled?
    case ParentStayed => k.pc.Accepted?
    case ParentLeft => k.pc.Accepted?
    case Stop(_) => k.pc.Stopping?
    case Recheck => k.pc.Stopped?
    case WriteNonce => k.pc.Rechecked?
    case Replace => k.pc.Nonced? && d.stages[w].candidate.Some?
    case Restart(_) => k.pc.Replaced?
    case AwaitReady(_) => k.pc.Waiting?
    case StopAgain(_) => k.pc.RollingBack?
    case BeginRestore => k.pc.RStopped?
    case EndRestore => k.pc.RCopying? && d.stages[w].previous.Whole?
    case PutBack => k.pc.RCopied? && d.temporary.Whole?
    case RestartOld(_, _) => k.pc.RReplaced?
    case AwaitOld(_) => k.pc.RWaiting?
    case StopFailed(_) => k.pc.RFailed?
    case WriteResult => k.pc.Finishing? && (k.pc.outcome.Succeeded? ==> w in d.approved)
    case RemoveJournal => k.pc.Closing?
    case Reject => k.pc.Rejecting?
    case Exit => k.pc.Exiting?
  }

  /** Starting Portal in the transaction's own way; `ok` says whether that could be done at all. */
  function AskRestart(d: Disk, w: nat, mode: Mode): Disk {
    match mode
    case Supervisor => d.(command := Some(Command(w, d.nextCommand, d.session)), nextCommand := d.nextCommand + 1)
    case StartScript => d.(issued := if d.nonce.Some? then d.issued + {d.nonce.value} else d.issued)
    case LaunchAgent => d
    case Manual => d
  }

  function WorkDisk(d: Disk, w: nat, k: Worker, step: Step): Disk
    requires CanStep(d, w, k, step)
  {
    var stage := d.stages[w];
    match step
    case ReadVersion(ok, _) =>
      if ok && Newer(d, w) then
        d.(approved := d.approved[w := Approval(k.signed.value, k.verified.value, stage.candidate.value)])
      else d
    case BeginBackup => d.SetStage(w, stage.(previous := Partial))
    case EndBackup => d.SetStage(w, stage.(previous := Whole(d.target)))
    case WriteJournal(adopted) => d.(journal := Some(Journal(w, FinalMode(k, adopted))))
    case WriteAccepted => d.SetStage(w, stage.(accepted := true))
    case WriteNonce => d.(nonce := Some(StageNonce(w)))
    case Replace => d.(target := stage.candidate.value).SetStage(w, stage.(candidate := None))
    case Restart(ok) => if ok then AskRestart(d, w, k.mode) else d
    case BeginRestore => d.(temporary := Partial)
    case EndRestore => d.(temporary := stage.previous)
    case PutBack => d.(target := d.temporary.image, temporary := Absent)
    case RestartOld(seen, ok) =>
      var d' := if k.mode.StartScript? then d.(nonce := Some(StageNonce(w))) else d;
      if ok && (k.mode.Supervisor? ==> seen) then AskRestart(d', w, k.mode) else d'
    case WriteResult =>
      var d' := d.SetStage(w, stage.(result := Some(k.pc.outcome)));
      if k.pc.outcome.Succeeded? then d'.(committed := d.committed + [Commit(w, d.approved[w])]) else d'
    case RemoveJournal => d.(journal := None)
    case Reject => if !stage.accepted && !d.Owns(w) then d.SetStage(w, stage.(result := Some(Failed))) else d
    case Exit => if d.Owns(w) then d.(journal := None) else d
    case _ => d
  }

  /** The candidate, as it is now, reports a newer version than what is installed. */
  predicate Newer(d: Disk, w: nat)
    requires w in d.stages
  {
    d.stages[w].candidate.Some? && d.stages[w].candidate.value.version.NewerThan(d.target.version)
  }

  function FinalMode(k: Worker, adopted: bool): Mode {
    if k.mode.Manual? && adopted then Supervisor else k.mode
  }

  function WorkPc(d: Disk, w: nat, k: Worker, step: Step): Worker
    requires CanStep(d, w, k, step)
  {
    var stage := d.stages[w];
    match step
    case TestResult => k.At(if stage.result.Some? then Exiting else WantLock)
    case TakeLock => k.At(Locked)
    case GiveUpLock => k.At(Rejecting)
    case ReadJournal(owned, supervisorAlive) =>
      if !owned then k.At(Rejecting)
      else if d.journal.None? then k.At(Checking)
      else if d.journal.value.stage != w then k.At(Rejecting)
      else
        var mode := d.journal.value.mode;
        Worker(RollingBack, if mode.Supervisor? && !supervisorAlive then Manual else mode, None, None)
    // Three reads of the candidate, which may have been exchanged in between.
    case VerifySignatures(ok) =>
      if ok && stage.candidate.Some? then k.(pc := Signed, signed := stage.candidate) else k.At(Rejecting)
    case TakeDigest =>
      if stage.candidate.Some? then k.(pc := Digested, verified := stage.candidate) else k.At(Rejecting)
    case ReadVersion(ok, mode) => if ok && Newer(d, w) then k.(pc := Checked, mode := mode) else k.At(Rejecting)
    case BeginBackup => k.At(Copying)
    case EndBackup => k.At(BackedUp)
    case FailAdoption => k.At(Rejecting)
    case WriteJournal(adopted) => k.(pc := Journaled, mode := FinalMode(k, adopted))
    case WriteAccepted => k.At(Accepted)
    case ParentStayed => k.At(Finishing(Failed))
    case ParentLeft => k.At(Stopping)
    case Stop(ok) => k.At(if ok then Stopped else RollingBack)
    case Recheck => k.At(if stage.candidate == k.verified then Rechecked else RollingBack)
    case WriteNonce => k.At(Nonced)
    case Replace => k.At(Replaced)
    case Restart(ok) => k.At(if k.mode.Manual? then Finishing(Succeeded) else if ok then Waiting else RollingBack)
    case AwaitReady(ok) => k.At(if ok then Finishing(Succeeded) else RollingBack)
    // An exception out of the rollback ends the worker and leaves the journal for the next one.
    case StopAgain(ok) => k.At(if ok then RStopped else Rejecting)
    case BeginRestore => k.At(RCopying)
    case EndRestore => k.At(RCopied)
    case PutBack => k.At(RReplaced)
    // The supervisor is looked for twice, as part of the rollback and for the restart; only without the first is it
    // left at that.
    case RestartOld(seen, ok) =>
      k.At(if k.mode.Manual? || (k.mode.Supervisor? && !seen) then Finishing(RolledBack)
           else if ok then RWaiting else RFailed)
    case AwaitOld(ok) => k.At(if ok then Finishing(RolledBack) else RFailed)
    case StopFailed(ok) => k.At(if ok then Finishing(RolledBack) else Rejecting)
    case WriteResult => k.At(Closing(k.pc.outcome))
    case RemoveJournal => k.At(if k.pc.outcome.RolledBack? && k.verified.Some? then Rejecting else Exiting)
    case Reject =>
      k.At(if (!stage.accepted && !d.Owns(w)) || stage.result.Some? then Exiting else Gone)
    case Exit => k.At(Gone)
  }

  // ---------------------------------------------------------------- invariants of the files and of one worker

  /** The version that commit `i` replaced. */
  function Before(initial: Image, committed: seq<Commit>, i: nat): Version
    requires i <= |committed|
  {
    if i == 0 then initial.version else committed[i - 1].Image().version
  }

  predicate Increasing(initial: Image, committed: seq<Commit>) {
    forall i :: 0 <= i < |committed| ==> committed[i].Image().version.NewerThan(Before(initial, committed, i))
  }

  /** The version that was read for each commit is newer than the one it replaced. */
  predicate Measured(initial: Image, committed: seq<Commit>) {
    forall i :: 0 <= i < |committed| ==> committed[i].approval.measured.version.NewerThan(Before(initial, committed, i))
  }

  /** The journal's stage keeps a complete backup until its outcome is durable, and the target is never anything but
      the complete old or new bytes. */
  ghost predicate DiskInv(d: Disk) {
    && Measured(d.initial, d.committed)
    && (d.journal.None? ==> d.target == d.Installed())
    && (d.journal.Some? ==> Journalled(d, d.journal.value.stage))
    && (forall w :: w in d.stages && d.stages[w].accepted ==> d.stages[w].result.Some? || d.Owns(w))
  }

  ghost predicate Journalled(d: Disk, w: nat) {
    && w in d.stages
    && (d.stages[w].result.Some? ==> d.target == d.Installed())
    && (d.stages[w].result.None? ==>
          && d.stages[w].previous == Whole(d.Installed())
          && w in d.approved && d.approved[w].measured.version.NewerThan(d.Installed().version)
          && (d.target == d.Installed() || d.target == d.approved[w].digested))
  }

  ghost predicate ResultsInv(d: Disk) {
    && (forall i :: 0 <= i < |d.committed| ==>
          d.committed[i].stage in d.stages && d.stages[d.committed[i].stage].result == Some(Succeeded))
    && (forall w ::
        w in d.stages && d.stages[w].result == Some(Succeeded) ==>
          exists i :: 0 <= i < |d.committed| && d.committed[i].stage == w)
    && (forall i, j :: 0 <= i < j < |d.committed| ==> d.committed[i].stage != d.committed[j].stage)
  }

  /** In the middle of its own transaction, with no outcome yet. */
  ghost predicate InTransaction(d: Disk, w: nat) {
    w in d.stages && d.Owns(w) && d.stages[w].result.None?
  }

  ghost predicate Ready(d: Disk, w: nat, k: Worker) {
    && k.verified.Some? && w in d.approved && d.approved[w].digested == k.verified.value
    && d.approved[w].measured.version.NewerThan(d.Installed().version)
  }

  /** No transaction at all, and no outcome of this stage. */
  ghost predicate Untouched(d: Disk, w: nat) {
    w in d.stages && d.stages[w].result.None? && d.journal.None?
  }

  ghost predicate OldInPlace(d: Disk, w: nat, k: Worker) {
    InTransaction(d, w) && Ready(d, w, k) && d.stages[w].accepted && d.target == d.Installed()
  }

  ghost predicate NewInPlace(d: Disk, w: nat, k: Worker) {
    InTransaction(d, w) && Ready(d, w, k) && d.stages[w].accepted && d.target == k.verified.value
  }

  ghost predicate GoingBack(d: Disk, w: nat, k: Worker) {
    InTransaction(d, w) && (k.verified.Some? ==> d.stages[w].accepted)
  }

  ghost predicate WorkerInv(d: Disk, w: nat, k: Worker) {
    && w in d.stages
    && match k.pc
       case Start => true
       case WantLock => d.stages[w].result.None?
       case Rejecting => d.stages[w].result.None? || d.stages[w].accepted
       case Exiting => d.stages[w].result.Some?
       case Gone => true
       case Locked => d.stages[w].result.None?
       case Checking => Untouched(d, w)
       case Signed => Untouched(d, w) && k.signed.Some?
       case Digested => Untouched(d, w) && k.signed.Some? && k.verified.Some?
       case Checked => Untouched(d, w) && Ready(d, w, k)
       case Copying => Untouched(d, w) && Ready(d, w, k)
       case BackedUp => Untouched(d, w) && Ready(d, w, k) && d.stages[w].previous == Whole(d.Installed())
       case Journaled => InTransaction(d, w) && Ready(d, w, k) && d.target == d.Installed()
       case Accepted => OldInPlace(d, w, k)
       case Stopping => OldInPlace(d, w, k)
       case Stopped => OldInPlace(d, w, k)
       case Rechecked => OldInPlace(d, w, k) && d.stages[w].candidate == k.verified
       case Nonced => OldInPlace(d, w, k) && d.stages[w].candidate == k.verified
       case Replaced => NewInPlace(d, w, k)
       case Waiting => NewInPlace(d, w, k)
       case RollingBack => GoingBack(d, w, k)
       case RStopped => GoingBack(d, w, k)
       case RCopying => GoingBack(d, w, k)
       case RCopied => GoingBack(d, w, k) && d.temporary == Whole(d.Installed())
       case RReplaced => GoingBack(d, w, k) && d.target == d.Installed()
       case RWaiting => GoingBack(d, w, k) && d.target == d.Installed()
       case RFailed => GoingBack(d, w, k) && d.target == d.Installed()
       case Finishing(outcome) =>
         && InTransaction(d, w) && (k.verified.Some? ==> d.stages[w].accepted)
         && (outcome.Succeeded? ==> Ready(d, w, k) && d.target == k.verified.value)
         && (!outcome.Succeeded? ==> d.target == d.Installed())
       case Closing(outcome) =>
         d.Owns(w) && d.stages[w].result == Some(outcome) && (k.verified.Some? ==> d.stages[w].accepted)
  }

  lemma MeasuredAppends(initial: Image, committed: seq<Commit>, next: Commit)
    requires Measured(initial, committed)
             && next.approval.measured.version.NewerThan(Before(initial, committed, |committed|))
    ensures Measured(initial, committed + [next])
  {
    var longer := committed + [next];
    forall i | 0 <= i < |longer| ensures longer[i].approval.measured.version.NewerThan(Before(initial, longer, i)) {
      assert Before(initial, longer, i) == Before(initial, committed, i);
      assert i < |committed| ==> longer[i] == committed[i];
    }
  }

  lemma SuccessKeepsDisk(d: Disk, w: nat, k: Worker)
    requires DiskInv(d) && k.pc == Finishing(Succeeded) && InTransaction(d, w) && Ready(d, w, k)
             && d.target == k.verified.value
    ensures DiskInv(WorkDisk(d, w, k, WriteResult))
  {
    MeasuredAppends(d.initial, d.committed, Commit(w, d.approved[w]));
  }

  lemma FailureKeepsDisk(d: Disk, w: nat, k: Worker)
    requires DiskInv(d) && WorkerInv(d, w, k) && k.pc.Finishing? && !k.pc.outcome.Succeeded?
    ensures DiskInv(WorkDisk(d, w, k, WriteResult))
  {}

  lemma OutcomeKeepsDisk(d: Disk, w: nat, k: Worker)
    requires DiskInv(d) && WorkerInv(d, w, k) && CanStep(d, w, k, WriteResult)
    ensures DiskInv(WorkDisk(d, w, k, WriteResult))
  {
    if k.pc.outcome.Succeeded? {
      SuccessKeepsDisk(d, w, k);
    } else {
      FailureKeepsDisk(d, w, k);
    }
  }

  lemma RecordStepKeepsDisk(d: Disk, w: nat, k: Worker, step: Step)
    requires DiskInv(d) && WorkerInv(d, w, k) && CanStep(d, w, k, step)
    requires step.ReadVersion? || step.BeginBackup? || step.EndBackup? || step.WriteJournal? || step.WriteAccepted?
             || step.Reject?
    ensures DiskInv(WorkDisk(d, w, k, step))
  {}

  lemma FileStepKeepsDisk(d: Disk, w: nat, k: Worker, step: Step)
    requires DiskInv(d) && WorkerInv(d, w, k) && CanStep(d, w, k, step)
    requires step.Replace? || step.BeginRestore? || step.EndRestore? || step.PutBack? || step.RemoveJournal?
             || step.Exit?
    ensures DiskInv(WorkDisk(d, w, k, step))
  {
    if step.Replace? || step.PutBack? {
      RenameKeepsDisk(d, w, k, step);
    }
  }

  lemma RenameKeepsDisk(d: Disk, w: nat, k: Worker, step: Step)
    requires DiskInv(d) && WorkerInv(d, w, k) && CanStep(d, w, k, step) && (step.Replace? || step.PutBack?)
    ensures DiskInv(WorkDisk(d, w, k, step))
  {}

  lemma StepKeepsDisk(d: Disk, w: nat, k: Worker, step: Step)
    requires DiskInv(d) && WorkerInv(d, w, k) && CanStep(d, w, k, step)
    ensures DiskInv(WorkDisk(d, w, k, step))
  {
    if step.WriteResult? {
      OutcomeKeepsDisk(d, w, k);
    } else if step.ReadVersion? || step.BeginBackup? || step.EndBackup? || step.WriteJournal? || step.WriteAccepted?
      || step.Reject? {
      RecordStepKeepsDisk(d, w, k, step);
    } else if step.Replace? || step.BeginRestore? || step.EndRestore? || step.PutBack? || step.RemoveJournal?
      || step.Exit? {
      FileStepKeepsDisk(d, w, k, step);
    } else {
      OtherStepsKeepFiles(d, w, k, step);
      SameFilesKeepDisk(d, WorkDisk(d, w, k, step));
    }
  }

  /** The files the transaction's safety rests on: all but those that only steer launches. */
  ghost predicate SameFiles(d: Disk, d': Disk) {
    && d'.target == d.target && d'.temporary == d.temporary && d'.journal == d.journal && d'.stages == d.stages
    && d'.initial == d.initial && d'.committed == d.committed && d'.approved == d.approved
  }

  lemma SameFilesKeepDisk(d: Disk, d': Disk)
    requires DiskInv(d) && SameFiles(d, d')
    ensures DiskInv(d')
  {}

  lemma SameFilesKeepWorker(d: Disk, d': Disk, w: nat, k: Worker)
    requires WorkerInv(d, w, k) && SameFiles(d, d')
    ensures WorkerInv(d', w, k)
  {}

  predicate TouchesFiles(step: Step) {
    || step.ReadVersion? || step.BeginBackup? || step.EndBackup? || step.WriteJournal? || step.WriteAccepted?
    || step.Reject?
    || step.Replace? || step.BeginRestore? || step.EndRestore? || step.PutBack? || step.RemoveJournal? || step.Exit?
    || step.WriteResult?
  }

  lemma OtherStepsKeepFiles(d: Disk, w: nat, k: Worker, step: Step)
    requires CanStep(d, w, k, step) && !TouchesFiles(step)
    ensures SameFiles(d, WorkDisk(d, w, k, step))
  {}

  ghost predicate SameResults(d: Disk, d': Disk) {
    && d'.stages.Keys == d.stages.Keys && d'.committed == d.committed
    && forall u :: u in d.stages ==> d'.stages[u].result == d.stages[u].result
  }

  lemma SameResultsKeepInv(d: Disk, d': Disk)
    requires ResultsInv(d) && SameResults(d, d')
    ensures ResultsInv(d')
  {
    forall u | u in d'.stages && d'.stages[u].result == Some(Succeeded)
      ensures exists i :: 0 <= i < |d'.committed| && d'.committed[i].stage == u
    {
      assert d.stages[u].result == Some(Succeeded);
    }
  }

  lemma MostStepsKeepResults(d: Disk, w: nat, k: Worker, step: Step)
    requires CanStep(d, w, k, step) && !step.WriteResult? && !step.Reject?
    ensures SameResults(d, WorkDisk(d, w, k, step))
  {}

  lemma OutcomeKeepsResults(d: Disk, w: nat, outcome: Outcome, approval: Approval)
    requires ResultsInv(d) && w in d.stages && d.stages[w].result.None?
    ensures var d' := d.SetStage(w, d.stages[w].(result := Some(outcome)));
            ResultsInv(if outcome.Succeeded? then d'.(committed := d.committed + [Commit(w, approval)]) else d')
  {
    var recorded := d.SetStage(w, d.stages[w].(result := Some(outcome)));
    var d' := if outcome.Succeeded? then recorded.(committed := d.committed + [Commit(w, approval)]) else recorded;
    forall u | u in d'.stages && d'.stages[u].result == Some(Succeeded)
      ensures exists i :: 0 <= i < |d'.committed| && d'.committed[i].stage == u
    {
      if u == w {
        assert d'.committed[|d.committed|].stage == u;
      } else {
        assert d.stages[u].result == Some(Succeeded);
        var i :| 0 <= i < |d.committed| && d.committed[i].stage == u;
        assert d'.committed[i].stage == u;
      }
    }
  }

  lemma StepKeepsResults(d: Disk, w: nat, k: Worker, step: Step)
    requires ResultsInv(d) && WorkerInv(d, w, k) && CanStep(d, w, k, step)
    ensures ResultsInv(WorkDisk(d, w, k, step))
  {
    if step.WriteResult? {
      var any := Approval(d.target, d.target, d.target);
      OutcomeKeepsResults(d, w, k.pc.outcome, if k.pc.outcome.Succeeded? then d.approved[w] else any);
    } else if step.Reject? {
      if d.stages[w].result.None? {
        OutcomeKeepsResults(d, w, Failed, Approval(d.target, d.target, d.target));
      }
    } else {
      MostStepsKeepResults(d, w, k, step);
      SameResultsKeepInv(d, WorkDisk(d, w, k, step));
    }
  }

  lemma StepKeepsWorker(d: Disk, w: nat, k: Worker, step: Step)
    requires DiskInv(d) && WorkerInv(d, w, k) && CanStep(d, w, k, step)
    ensures WorkerInv(WorkDisk(d, w, k, step), w, WorkPc(d, w, k, step))
  {
    if BeforeJournal(k.pc) {
      PreparationKeepsWorker(d, w, k, step);
    } else if InForwardPath(k.pc) {
      ForwardStepKeepsWorker(d, w, k, step);
    } else if RestoresFile(k.pc) {
      RestoringKeepsWorker(d, w, k, step);
    } else if k.pc.Finishing? || k.pc.Closing? || !k.pc.HoldsLock() {
      OuterStepKeepsWorker(d, w, k, step);
    } else {
      BackwardStepKeepsWorker(d, w, k, step);
    }
  }

  predicate BeforeJournal(pc: Pc) {
    pc.Locked? || pc.Checking? || pc.Signed? || pc.Digested? || pc.Checked? || pc.Copying? || pc.BackedUp?
  }

  predicate InForwardPath(pc: Pc) {
    || pc.Journaled? || pc.Accepted? || pc.Stopping? || pc.Stopped? || pc.Rechecked? || pc.Nonced? || pc.Replaced?
    || pc.Waiting?
  }

  predicate RestoresFile(pc: Pc) {
    pc.RollingBack? || pc.RStopped? || pc.RCopying? || pc.RCopied?
  }

  lemma PreparationKeepsWorker(d: Disk, w: nat, k: Worker, step: Step)
    requires DiskInv(d) && WorkerInv(d, w, k) && CanStep(d, w, k, step) && BeforeJournal(k.pc)
    ensures WorkerInv(WorkDisk(d, w, k, step), w, WorkPc(d, w, k, step))
  {
    if k.pc.Locked? {
      LookAtJournalKeepsWorker(d, w, k, step);
    } else if k.pc.Checking? || k.pc.Signed? {
      FirstReadsKeepWorker(d, w, k, step);
    } else if k.pc.Digested? {
      LastReadKeepsWorker(d, w, k, step);
    } else if k.pc.BackedUp? {
      JournalKeepsWorker(d, w, k, step);
    } else {
      BackupKeepsWorker(d, w, k, step);
    }
  }

  lemma LookAtJournalKeepsWorker(d: Disk, w: nat, k: Worker, step: Step)
    requires WorkerInv(d, w, k) && CanStep(d, w, k, step) && k.pc.Locked?
    ensures WorkerInv(WorkDisk(d, w, k, step), w, WorkPc(d, w, k, step))
  {}

  lemma FirstReadsKeepWorker(d: Disk, w: nat, k: Worker, step: Step)
    requires WorkerInv(d, w, k) && CanStep(d, w, k, step) && (k.pc.Checking? || k.pc.Signed?)
    ensures WorkerInv(WorkDisk(d, w, k, step), w, WorkPc(d, w, k, step))
  {}

  lemma LastReadKeepsWorker(d: Disk, w: nat, k: Worker, step: Step)
    requires DiskInv(d) && WorkerInv(d, w, k) && CanStep(d, w, k, step) && k.pc.Digested?
    ensures WorkerInv(WorkDisk(d, w, k, step), w, WorkPc(d, w, k, step))
  {}

  lemma BackupKeepsWorker(d: Disk, w: nat, k: Worker, step: Step)
    requires DiskInv(d) && WorkerInv(d, w, k) && CanStep(d, w, k, step) && (k.pc.Checked? || k.pc.Copying?)
    ensures WorkerInv(WorkDisk(d, w, k, step), w, WorkPc(d, w, k, step))
  {}

  lemma JournalKeepsWorker(d: Disk, w: nat, k: Worker, step: Step)
    requires DiskInv(d) && WorkerInv(d, w, k) && CanStep(d, w, k, step) && k.pc.BackedUp?
    ensures WorkerInv(WorkDisk(d, w, k, step), w, WorkPc(d, w, k, step))
  {}

  lemma RestoringKeepsWorker(d: Disk, w: nat, k: Worker, step: Step)
    requires DiskInv(d) && WorkerInv(d, w, k) && CanStep(d, w, k, step) && RestoresFile(k.pc)
    ensures WorkerInv(WorkDisk(d, w, k, step), w, WorkPc(d, w, k, step))
  {}

  lemma AcceptanceKeepsWorker(d: Disk, w: nat, k: Worker)
    requires WorkerInv(d, w, k) && CanStep(d, w, k, WriteAccepted)
    ensures WorkerInv(WorkDisk(d, w, k, WriteAccepted), w, WorkPc(d, w, k, WriteAccepted))
  {}

  lemma ReplacementKeepsWorker(d: Disk, w: nat, k: Worker)
    requires WorkerInv(d, w, k) && CanStep(d, w, k, Replace)
    ensures WorkerInv(WorkDisk(d, w, k, Replace), w, WorkPc(d, w, k, Replace))
  {}

  lemma ForwardStepKeepsWorker(d: Disk, w: nat, k: Worker, step: Step)
    requires DiskInv(d) && WorkerInv(d, w, k) && CanStep(d, w, k, step) && InForwardPath(k.pc)
    ensures WorkerInv(WorkDisk(d, w, k, step), w, WorkPc(d, w, k, step))
  {
    if step.WriteAccepted? {
      AcceptanceKeepsWorker(d, w, k);
    } else if step.Replace? {
      ReplacementKeepsWorker(d, w, k);
    } else {
      ForwardStepsSpareFiles(d, w, k, step);
      ForwardPcKeepsWorker(d, w, k, step);
      SameFilesKeepWorker(d, WorkDisk(d, w, k, step), w, WorkPc(d, w, k, step));
    }
  }

  lemma ForwardStepsSpareFiles(d: Disk, w: nat, k: Worker, step: Step)
    requires CanStep(d, w, k, step) && InForwardPath(k.pc) && !step.WriteAccepted? && !step.Replace?
    ensures !TouchesFiles(step) && SameFiles(d, WorkDisk(d, w, k, step))
  {
    OtherStepsKeepFiles(d, w, k, step);
  }

  lemma ForwardPcKeepsWorker(d: Disk, w: nat, k: Worker, step: Step)
    requires DiskInv(d) && WorkerInv(d, w, k) && CanStep(d, w, k, step) && InForwardPath(k.pc) && !TouchesFiles(step)
    ensures WorkerInv(d, w, WorkPc(d, w, k, step))
  {}

  lemma BackwardStepKeepsWorker(d: Disk, w: nat, k: Worker, step: Step)
    requires DiskInv(d) && WorkerInv(d, w, k) && CanStep(d, w, k, step)
    requires k.pc.RReplaced? || k.pc.RWaiting? || k.pc.RFailed?
    ensures WorkerInv(WorkDisk(d, w, k, step), w, WorkPc(d, w, k, step))
  {
    assert WorkerInv(d, w, WorkPc(d, w, k, step));
    OtherStepsKeepFiles(d, w, k, step);
    SameFilesKeepWorker(d, WorkDisk(d, w, k, step), w, WorkPc(d, w, k, step));
  }

  lemma OuterStepKeepsWorker(d: Disk, w: nat, k: Worker, step: Step)
    requires DiskInv(d) && WorkerInv(d, w, k) && CanStep(d, w, k, step)
    requires k.pc.Finishing? || k.pc.Closing? || !k.pc.HoldsLock()
    ensures WorkerInv(WorkDisk(d, w, k, step), w, WorkPc(d, w, k, step))
  {}

  /** A step of one worker leaves alone what another relies on, provided they do not both hold the lock. */
  lemma StepSparesOthers(d: Disk, w: nat, k: Worker, step: Step, u: nat, other: Worker)
    requires WorkerInv(d, w, k) && CanStep(d, w, k, step) && WorkerInv(d, u, other)
    requires u != w && !(other.pc.HoldsLock() && (k.pc.HoldsLock() || step.TakeLock?))
    ensures WorkerInv(WorkDisk(d, w, k, step), u, other)
  {}

  // ---------------------------------------------------------------- the whole installation

  /** The live workers, by stage, and the holder of the exclusive maintenance lock. */
  datatype System = System(disk: Disk, workers: map<nat, Worker>, lock: Option<nat>)

  datatype Event =
    | Submit(w: nat, candidate: Image)
    | Launch(w: nat)
    | Die(w: nat)
    | Tamper(w: nat, exchanged: Option<Image>)
    | Work(w: nat, step: Step)

  /** One worker per stage is alive at a time; a candidate is not exchanged between its last digest and the rename. */
  predicate Possible(s: System, ev: Event) {
    match ev
    case Submit(w, _) => w !in s.disk.stages
    case Launch(w) => w in s.disk.stages && w !in s.workers
    case Die(w) => w in s.workers
    case Tamper(w, _) =>
      w in s.disk.stages && !(w in s.workers && (s.workers[w].pc.Rechecked? || s.workers[w].pc.Nonced?))
    case Work(w, step) => w in s.workers && CanStep(s.disk, w, s.workers[w], step) && (step.TakeLock? ==> s.lock.None?)
  }

  /** A worker that ends, in whatever way, gives up the lock. */
  function WithWorker(s: System, w: nat, k: Worker): System {
    s.(workers := if k.pc.Gone? then s.workers - {w} else s.workers[w := k],
       lock := if k.pc.HoldsLock() then Some(w) else if s.lock == Some(w) then None else s.lock)
  }

  function Apply(s: System, ev: Event): System
    requires Possible(s, ev)
  {
    match ev
    case Submit(w, candidate) => s.(disk := s.disk.SetStage(w, Stage(Some(candidate), Absent, false, None)))
    case Launch(w) => WithWorker(s, w, Fresh)
    case Die(w) => WithWorker(s, w, s.workers[w].At(Gone))
    case Tamper(w, exchanged) => s.(disk := s.disk.SetStage(w, s.disk.stages[w].(candidate := exchanged)))
    case Work(w, step) =>
      var k := s.workers[w];
      WithWorker(s, w, WorkPc(s.disk, w, k, step)).(disk := WorkDisk(s.disk, w, k, step))
  }

  ghost predicate LockInv(s: System) {
    && (s.lock.Some? ==> s.lock.value in s.workers && s.workers[s.lock.value].pc.HoldsLock())
    && (forall w :: w in s.workers && s.workers[w].pc.HoldsLock() ==> s.lock == Some(w))
  }

  ghost predicate WorkersInv(s: System) {
    forall w :: w in s.workers ==> WorkerInv(s.disk, w, s.workers[w])
  }

  ghost predicate Inv(s: System) {
    DiskInv(s.disk) && ResultsInv(s.disk) && LockInv(s) && WorkersInv(s)
  }

  lemma LockKept(s: System, ev: Event)
    requires LockInv(s) && Possible(s, ev)
    ensures LockInv(Apply(s, ev))
  {
    if ev.Work? {
      var k := s.workers[ev.w];
      var k' := WorkPc(s.disk, ev.w, k, ev.step);
      assert k'.pc.HoldsLock() ==> k.pc.HoldsLock() || ev.step.TakeLock?;
    }
  }

  lemma WorkKeepsWorkers(s: System, w: nat, step: Step)
    requires DiskInv(s.disk) && LockInv(s) && WorkersInv(s) && Possible(s, Work(w, step))
    ensures WorkersInv(Apply(s, Work(w, step)))
  {
    var s' := Apply(s, Work(w, step));
    forall u | u in s'.workers ensures WorkerInv(s'.disk, u, s'.workers[u]) {
      if u == w {
        StepKeepsWorker(s.disk, w, s.workers[w], step);
      } else {
        StepSparesOthers(s.disk, w, s.workers[w], step, u, s.workers[u]);
      }
    }
  }

  lemma EnvironmentKeepsDisk(s: System, ev: Event)
    requires DiskInv(s.disk) && Possible(s, ev) && !ev.Work?
    ensures DiskInv(Apply(s, ev).disk)
  {
    if ev.Submit? {
      NewStageKeepsDisk(s.disk, ev.w, ev.candidate);
    } else if ev.Tamper? {
      ExchangeKeepsDisk(s.disk, ev.w, ev.exchanged);
    }
  }

  lemma NewStageKeepsDisk(d: Disk, w: nat, candidate: Image)
    requires DiskInv(d) && w !in d.stages
    ensures DiskInv(d.SetStage(w, Stage(Some(candidate), Absent, false, None)))
  {}

  lemma ExchangeKeepsDisk(d: Disk, w: nat, exchanged: Option<Image>)
    requires DiskInv(d) && w in d.stages
    ensures DiskInv(d.SetStage(w, d.stages[w].(candidate := exchanged)))
  {}

  lemma EnvironmentKeepsResults(s: System, ev: Event)
    requires ResultsInv(s.disk) && Possible(s, ev) && !ev.Work?
    ensures ResultsInv(Apply(s, ev).disk)
  {}

  lemma EnvironmentKeepsWorkers(s: System, ev: Event)
    requires WorkersInv(s) && Possible(s, ev) && !ev.Work?
    ensures WorkersInv(Apply(s, ev))
  {}

  lemma EventKeepsInv(s: System, ev: Event)
    requires Inv(s) && Possible(s, ev)
    ensures Inv(Apply(s, ev))
  {
    LockKept(s, ev);
    if ev.Work? {
      StepKeepsDisk(s.disk, ev.w, s.workers[ev.w], ev.step);
      StepKeepsResults(s.disk, ev.w, s.workers[ev.w], ev.step);
      WorkKeepsWorkers(s, ev.w, ev.step);
    } else {
      EnvironmentKeepsDisk(s, ev);
      EnvironmentKeepsResults(s, ev);
      EnvironmentKeepsWorkers(s, ev);
    }
  }

  // ---------------------------------------------------------------- runs

  ghost predicate RunOf(s: System, evs: seq<Event>)
    decreases |evs|
  {
    evs == [] || (Possible(s, evs[0]) && RunOf(Apply(s, evs[0]), evs[1..]))
  }

  ghost function After(s: System, evs: seq<Event>): System
    requires RunOf(s, evs)
    decreases |evs|
  {
    if evs == [] then s else After(Apply(s, evs[0]), evs[1..])
  }

  /** An installation that no upgrade has touched. */
  ghost predicate Initial(s: System) {
    && s.disk.journal.None? && s.disk.committed == [] && s.disk.target == s.disk.initial && s.disk.stages == map[]
    && s.workers == map[] && s.lock.None?
  }

  lemma {:induction false} RunKeepsInv(s: System, evs: seq<Event>)
    requires Inv(s) && RunOf(s, evs)
    ensures Inv(After(s, evs))
    decreases |evs|
  {
    if evs != [] {
      EventKeepsInv(s, evs[0]);
      RunKeepsInv(Apply(s, evs[0]), evs[1..]);
    }
  }

  ghost predicate IsCommitted(d: Disk, w: nat) {
    exists i :: 0 <= i < |d.committed| && d.committed[i].stage == w
  }

  /** Whatever workers run, die and are relaunched, and however candidates are exchanged meanwhile: the target is the
      last image that durably succeeded, or, while the journal of a stage without outcome is there, possibly the image
      that stage's worker hashed, and then the backup of the former is complete. Only succeeded stages commit, each
      once, and the version read for each commit is newer than the one it replaced. */
  lemma EveryRunIsSound(s: System, evs: seq<Event>)
    requires Initial(s) && RunOf(s, evs)
    ensures var d := After(s, evs).disk;
            && (d.journal.None? ==> d.target == d.Installed())
            && (d.journal.Some? ==>
                  var w := d.journal.value.stage;
                  && w in d.stages
                  && (d.stages[w].result.Some? ==> d.target == d.Installed())
                  && (d.stages[w].result.None? ==>
                        && d.stages[w].previous == Whole(d.Installed()) && w in d.approved
                        && (d.target == d.Installed() || d.target == d.approved[w].digested)))
            && Measured(d.initial, d.committed)
            && (forall w :: w in d.stages ==> (d.stages[w].result == Some(Succeeded) <==> IsCommitted(d, w)))
            && (forall i, j :: 0 <= i < j < |d.committed| ==> d.committed[i].stage != d.committed[j].stage)
  {
    RunKeepsInv(s, evs);
  }

  // ---------------------------------------------------------------- candidates that hold still while they are checked

  /** No exchange between the first and the last of the three reads. */
  predicate Undisturbed(s: System, ev: Event) {
    ev.Tamper? && ev.w in s.workers ==> !s.workers[ev.w].pc.Signed? && !s.workers[ev.w].pc.Digested?
  }

  ghost predicate UndisturbedRun(s: System, evs: seq<Event>)
    requires RunOf(s, evs)
    decreases |evs|
  {
    evs == [] || (Undisturbed(s, evs[0]) && UndisturbedRun(Apply(s, evs[0]), evs[1..]))
  }

  ghost predicate HoldsStill(d: Disk, w: nat, k: Worker) {
    w in d.stages
    && (k.pc.Signed? ==> d.stages[w].candidate == k.signed)
    && (k.pc.Digested? ==> d.stages[w].candidate == k.signed && k.verified == k.signed)
  }

  ghost predicate SteadyInv(s: System) {
    && (forall w :: w in s.workers ==> HoldsStill(s.disk, w, s.workers[w]))
    && (forall w :: w in s.disk.approved ==> s.disk.approved[w].Steady())
    && (forall i :: 0 <= i < |s.disk.committed| ==> s.disk.committed[i].approval.Steady())
  }

  /** No other worker touches a candidate that is being checked. */
  lemma StepHoldsStill(d: Disk, w: nat, k: Worker, step: Step, u: nat, other: Worker)
    requires CanStep(d, w, k, step) && HoldsStill(d, u, other) && u != w
    ensures HoldsStill(WorkDisk(d, w, k, step), u, other)
  {
    StepKeepsCandidates(d, w, k, step);
  }

  /** Only the two reads before the last one lead to where the candidate matters. */
  lemma OwnStepHoldsStill(d: Disk, w: nat, k: Worker, step: Step)
    requires CanStep(d, w, k, step) && HoldsStill(d, w, k)
    ensures HoldsStill(WorkDisk(d, w, k, step), w, WorkPc(d, w, k, step))
  {
    StepKeepsCandidates(d, w, k, step);
    if !step.VerifySignatures? && !step.TakeDigest? {
      LeavesTheChecks(d, w, k, step);
    }
  }

  lemma LeavesTheChecks(d: Disk, w: nat, k: Worker, step: Step)
    requires CanStep(d, w, k, step) && !step.VerifySignatures? && !step.TakeDigest?
    ensures !WorkPc(d, w, k, step).pc.Signed? && !WorkPc(d, w, k, step).pc.Digested?
  {}

  lemma StepKeepsCandidates(d: Disk, w: nat, k: Worker, step: Step)
    requires CanStep(d, w, k, step)
    ensures var d' := WorkDisk(d, w, k, step);
            && (forall u :: u in d.stages ==> u in d'.stages)
            && (forall u ::
                u in d.stages && (u != w || !step.Replace?) ==> d'.stages[u].candidate == d.stages[u].candidate)
  {}

  lemma StepApprovesSteadily(d: Disk, w: nat, k: Worker, step: Step)
    requires CanStep(d, w, k, step) && HoldsStill(d, w, k)
    requires forall u :: u in d.approved ==> d.approved[u].Steady()
    requires forall i :: 0 <= i < |d.committed| ==> d.committed[i].approval.Steady()
    ensures var d' := WorkDisk(d, w, k, step);
            && (forall u :: u in d'.approved ==> d'.approved[u].Steady())
            && (forall i :: 0 <= i < |d'.committed| ==> d'.committed[i].approval.Steady())
  {}

  lemma EventKeepsSteady(s: System, ev: Event)
    requires SteadyInv(s) && Possible(s, ev) && Undisturbed(s, ev)
    ensures SteadyInv(Apply(s, ev))
  {
    if ev.Work? {
      var s' := Apply(s, ev);
      var k := s.workers[ev.w];
      StepApprovesSteadily(s.disk, ev.w, k, ev.step);
      forall u | u in s'.workers ensures HoldsStill(s'.disk, u, s'.workers[u]) {
        if u == ev.w {
          OwnStepHoldsStill(s.disk, u, k, ev.step);
        } else {
          StepHoldsStill(s.disk, ev.w, k, ev.step, u, s.workers[u]);
        }
      }
    }
  }

  lemma {:induction false} RunKeepsSteady(s: System, evs: seq<Event>)
    requires SteadyInv(s) && RunOf(s, evs) && UndisturbedRun(s, evs)
    ensures SteadyInv(After(s, evs))
    decreases |evs|
  {
    if evs != [] {
      EventKeepsSteady(s, evs[0]);
      RunKeepsSteady(Apply(s, evs[0]), evs[1..]);
    }
  }

  /** The order of the commits hinges on nothing else: it holds for a commit whose hashed image was the measured one. */
  lemma SteadyCommitsIncrease(initial: Image, committed: seq<Commit>)
    requires Measured(initial, committed) && forall i :: 0 <= i < |committed| ==> committed[i].approval.Steady()
    ensures Increasing(initial, committed)
  {}

  /** When no candidate is exchanged while it is being checked, every commit's image passed the signature check itself,
      and the committed versions strictly increase. */
  lemma UndisturbedRunsIncrease(s: System, evs: seq<Event>)
    requires Initial(s) && s.disk.approved == map[] && RunOf(s, evs) && UndisturbedRun(s, evs)
    ensures var d := After(s, evs).disk;
            && Increasing(d.initial, d.committed)
            && (forall i :: 0 <= i < |d.committed| ==> d.committed[i].approval.signed == d.committed[i].Image())
            && (d.target == d.Installed() || exists w :: w in d.approved && d.target == d.approved[w].signed)
  {
    RunKeepsInv(s, evs);
    RunKeepsSteady(s, evs);
    var d := After(s, evs).disk;
    SteadyCommitsIncrease(d.initial, d.committed);
  }

  lemma StepKeepsOutcomes(d: Disk, w: nat, k: Worker, step: Step)
    requires WorkerInv(d, w, k) && CanStep(d, w, k, step)
    ensures var d' := WorkDisk(d, w, k, step);
            && d.committed <= d'.committed && d'.initial == d.initial
            && forall u ::
                 u in d.stages ==>
                   u in d'.stages && (d.stages[u].result.Some? ==> d'.stages[u].result == d.stages[u].result)
  {
    if !step.WriteResult? && !step.Reject? {
      MostStepsKeepResults(d, w, k, step);
      StepsKeepInitial(d, w, k, step);
    }
  }

  lemma StepsKeepInitial(d: Disk, w: nat, k: Worker, step: Step)
    requires CanStep(d, w, k, step)
    ensures WorkDisk(d, w, k, step).initial == d.initial
  {}

  lemma EventKeepsOutcomes(s: System, ev: Event, w: nat)
    requires WorkersInv(s) && Possible(s, ev) && w in s.disk.stages && s.disk.stages[w].result.Some?
    ensures var d := Apply(s, ev).disk;
            && w in d.stages && d.stages[w].result == s.disk.stages[w].result && s.disk.committed <= d.committed
  {
    if ev.Work? {
      assert WorkerInv(s.disk, ev.w, s.workers[ev.w]);
      StepKeepsOutcomes(s.disk, ev.w, s.workers[ev.w], ev.step);
    }
  }

  lemma CommittedMeansSucceeded(d: Disk, w: nat)
    requires ResultsInv(d) && w in d.stages
    ensures IsCommitted(d, w) <==> d.stages[w].result == Some(Succeeded)
  {}

  lemma {:induction false} OutcomesStay(s: System, evs: seq<Event>, w: nat)
    requires Inv(s) && RunOf(s, evs) && w in s.disk.stages && s.disk.stages[w].result.Some?
    ensures var d := After(s, evs).disk;
            w in d.stages && d.stages[w].result == s.disk.stages[w].result && s.disk.committed <= d.committed
    decreases |evs|
  {
    if evs != [] {
      EventKeepsInv(s, evs[0]);
      EventKeepsOutcomes(s, evs[0], w);
      OutcomesStay(Apply(s, evs[0]), evs[1..], w);
    }
  }

  /** Outcomes are final: a durable success is never undone, and what failed or was rolled back never commits. */
  lemma OutcomesAreFinal(s: System, evs: seq<Event>, w: nat)
    requires Inv(s) && RunOf(s, evs) && w in s.disk.stages && s.disk.stages[w].result.Some?
    ensures var d := After(s, evs).disk;
            && w in d.stages && d.stages[w].result == s.disk.stages[w].result && s.disk.committed <= d.committed
            && (IsCommitted(d, w) <==> s.disk.stages[w].result == Some(Succeeded))
  {
    OutcomesStay(s, evs, w);
    RunKeepsInv(s, evs);
    CommittedMeansSucceeded(After(s, evs).disk, w);
  }

  // ---------------------------------------------------------------- interrupted transactions

  /** The journal is there without an outcome, and the stage's worker, if any, is not in the forward path. */
  ghost predicate Interrupted(s: System, w: nat) {
    && InTransaction(s.disk, w)
    && (w in s.workers && s.workers[w].pc.HoldsLock() ==> Recovers(s.workers[w]))
  }

  predicate Recovers(k: Worker) {
    || k.pc.Locked?
    || RestoresFile(k.pc) || k.pc.RReplaced? || k.pc.RWaiting? || k.pc.RFailed? || k.pc == Finishing(RolledBack)
  }

  ghost predicate StillInterruptedOrRolledBack(s: System, w: nat) {
    Interrupted(s, w) || (w in s.disk.stages && s.disk.stages[w].result == Some(RolledBack))
  }

  /** While a stage's journal is there, every other stage's worker either waits, is refused, or has its outcome: none
      of its steps reaches the target, the backup, the journal or the temporary file. */
  lemma OthersStandStill(s: System, w: nat, u: nat, step: Step)
    requires Inv(s) && s.disk.Owns(w) && u != w && Possible(s, Work(u, step))
    ensures var d, d' := s.disk, Apply(s, Work(u, step)).disk;
            && !InsideTransaction(s.workers[u].pc)
            && d'.target == d.target && d'.journal == d.journal && d'.temporary == d.temporary && d'.nonce == d.nonce
            && d'.command == d.command && d'.committed == d.committed && w in d.stages && w in d'.stages
            && d'.stages[w] == d.stages[w]
  {
    assert WorkerInv(s.disk, u, s.workers[u]);
    OtherIsOutside(s.disk, w, u, s.workers[u]);
    OutsideStepsTouchLittle(s.disk, u, s.workers[u], step, w);
  }

  predicate InsideTransaction(pc: Pc) {
    pc.HoldsLock() && !pc.Locked?
  }

  lemma OtherIsOutside(d: Disk, w: nat, u: nat, k: Worker)
    requires WorkerInv(d, u, k) && d.Owns(w) && u != w
    ensures !InsideTransaction(k.pc)
  {}

  lemma OutsideStepsTouchLittle(d: Disk, u: nat, k: Worker, step: Step, w: nat)
    requires CanStep(d, u, k, step) && !InsideTransaction(k.pc) && d.Owns(w) && u != w
    ensures var d' := WorkDisk(d, u, k, step);
            && d'.target == d.target && d'.journal == d.journal && d'.temporary == d.temporary && d'.nonce == d.nonce
            && d'.command == d.command && d'.committed == d.committed
            && (w in d.stages ==> w in d'.stages && d'.stages[w] == d.stages[w])
  {}

  lemma RecoveringStep(d: Disk, w: nat, k: Worker, step: Step)
    requires WorkerInv(d, w, k) && CanStep(d, w, k, step) && InTransaction(d, w) && Recovers(k)
    ensures var d', k' := WorkDisk(d, w, k, step), WorkPc(d, w, k, step);
            || d'.stages[w].result == Some(RolledBack)
            || (InTransaction(d', w) && (k'.pc.HoldsLock() ==> Recovers(k')))
  {
    if RestoresFile(k.pc) {
      RestoringStep(d, w, k, step);
    }
  }

  lemma RestoringStep(d: Disk, w: nat, k: Worker, step: Step)
    requires CanStep(d, w, k, step) && InTransaction(d, w) && RestoresFile(k.pc)
    ensures var d', k' := WorkDisk(d, w, k, step), WorkPc(d, w, k, step);
            InTransaction(d', w) && (k'.pc.HoldsLock() ==> Recovers(k'))
  {
    RestoringKeepsRecords(d, w, k, step);
  }

  lemma RestoringKeepsRecords(d: Disk, w: nat, k: Worker, step: Step)
    requires CanStep(d, w, k, step) && RestoresFile(k.pc)
    ensures var d' := WorkDisk(d, w, k, step); d'.stages == d.stages && d'.journal == d.journal
  {}

  lemma IdleStep(d: Disk, w: nat, k: Worker, step: Step)
    requires CanStep(d, w, k, step) && InTransaction(d, w) && !k.pc.HoldsLock() && !k.pc.Exiting?
    ensures var d', k' := WorkDisk(d, w, k, step), WorkPc(d, w, k, step);
            InTransaction(d', w) && (k'.pc.HoldsLock() ==> Recovers(k'))
  {
    IdleStepKeepsFiles(d, w, k, step);
  }

  lemma IdleStepKeepsFiles(d: Disk, w: nat, k: Worker, step: Step)
    requires CanStep(d, w, k, step) && d.Owns(w) && !k.pc.HoldsLock() && !k.pc.Exiting?
    ensures WorkDisk(d, w, k, step) == d
  {}

  lemma OwnWorkKeepsInterrupted(s: System, w: nat, step: Step)
    requires WorkersInv(s) && Possible(s, Work(w, step)) && Interrupted(s, w)
    ensures StillInterruptedOrRolledBack(Apply(s, Work(w, step)), w)
  {
    assert WorkerInv(s.disk, w, s.workers[w]);
    if s.workers[w].pc.HoldsLock() {
      RecoveringStep(s.disk, w, s.workers[w], step);
    } else {
      IdleStep(s.disk, w, s.workers[w], step);
    }
  }

  lemma OtherWorkKeepsInterrupted(s: System, w: nat, u: nat, step: Step)
    requires Inv(s) && Possible(s, Work(u, step)) && u != w && Interrupted(s, w)
    ensures Interrupted(Apply(s, Work(u, step)), w)
  {
    OthersStandStill(s, w, u, step);
    var s' := Apply(s, Work(u, step));
    assert w in s'.workers ==> w in s.workers && s'.workers[w] == s.workers[w];
  }

  lemma EventKeepsInterrupted(s: System, ev: Event, w: nat)
    requires Inv(s) && Possible(s, ev) && Interrupted(s, w)
    ensures StillInterruptedOrRolledBack(Apply(s, ev), w)
  {
    if ev.Work? {
      if ev.w == w {
        OwnWorkKeepsInterrupted(s, w, ev.step);
      } else {
        OtherWorkKeepsInterrupted(s, w, ev.w, ev.step);
      }
    } else {
      EnvironmentKeepsInterrupted(s, ev, w);
    }
  }

  lemma EnvironmentKeepsInterrupted(s: System, ev: Event, w: nat)
    requires Possible(s, ev) && Interrupted(s, w) && !ev.Work?
    ensures Interrupted(Apply(s, ev), w)
  {}

  /** The journal forces rollback: once a transaction is interrupted it can only end rolled back, however often its
      recovery is itself interrupted, and until then the backup stays complete and the journal in place. */
  lemma {:induction false} InterruptedOnlyRollsBack(s: System, evs: seq<Event>, w: nat)
    requires Inv(s) && RunOf(s, evs) && Interrupted(s, w)
    ensures var d := After(s, evs).disk;
            && w in d.stages
            && (d.stages[w].result == Some(RolledBack)
                || (d.stages[w].result.None? && d.Owns(w) && d.stages[w].previous == Whole(d.Installed())))
    decreases |evs|
  {
    if evs != [] {
      EventKeepsInv(s, evs[0]);
      EventKeepsInterrupted(s, evs[0], w);
      var s' := Apply(s, evs[0]);
      if s'.disk.stages[w].result == Some(RolledBack) {
        OutcomesStay(s', evs[1..], w);
      } else {
        InterruptedOnlyRollsBack(s', evs[1..], w);
      }
    }
  }
}
