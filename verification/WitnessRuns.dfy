/**
 Whole runs from an untouched installation: three in which Portal starts between an upgrade worker's stop and its
 rename, so that each exception of module Launches does occur, and one in which a candidate that is exchanged while it
 is being checked installs an older, unsigned image.
 */
module WitnessRuns {
  import opened Basics
  import opened Upgrade
  import opened UpgradeWorkers
  import opened Launches

  // ---------------------------------------------------------------- one worker's way, for any installation

  function Last(trace: seq<Point>): Point
    requires trace != []
  {
    trace[|trace| - 1]
  }

  lemma Extend(w: nat, trace: seq<Point>, step: Step) returns (longer: seq<Point>)
    requires IsTrace(w, trace) && CanStep(Last(trace).disk, w, Last(trace).worker, step)
    ensures IsTrace(w, longer) && longer[0] == trace[0]
    ensures Last(longer).disk == WorkDisk(Last(trace).disk, w, Last(trace).worker, step)
    ensures Last(longer).worker == WorkPc(Last(trace).disk, w, Last(trace).worker, step)
  {
    TraceGrows(w, trace, step);
    var last := Last(trace);
    longer := trace + [Point(WorkDisk(last.disk, w, last.worker, step), WorkPc(last.disk, w, last.worker, step))];
  }

  /** A stage that the checks let pass. */
  predicate Promising(d: Disk, w: nat) {
    && w in d.stages && d.journal.None? && d.stages[w].result.None? && d.stages[w].candidate.Some?
    && d.stages[w].candidate.value.version.NewerThan(d.target.version)
  }

  /** All three reads found the same image. */
  function Approve(image: Image): Approval {
    Approval(image, image, image)
  }

  function Verified(pc: Pc, mode: Mode, candidate: Option<Image>): Worker {
    Worker(pc, mode, candidate, candidate)
  }

  /** Up to the version check: journal absent, signature verified. */
  lemma Signs(d: Disk, w: nat) returns (trace: seq<Point>)
    requires Promising(d, w)
    ensures IsTrace(w, trace) && trace[0] == Point(d, Fresh)
    ensures Last(trace) == Point(d, Worker(Signed, Manual, d.stages[w].candidate, None))
  {
    trace := [Point(d, Fresh)];
    trace := Extend(w, trace, TestResult);
    trace := Extend(w, trace, TakeLock);
    trace := Extend(w, trace, ReadJournal(true, true));
    assert Last(trace) == Point(d, Fresh.At(Checking));
    trace := Extend(w, trace, VerifySignatures(true));
  }

  /** With the backup taken, the journal written and the transaction accepted. */
  function InTransit(d: Disk, w: nat, mode: Mode, approval: Approval): Disk
    requires w in d.stages
  {
    d.(approved := d.approved[w := approval], journal := Some(Journal(w, mode)))
    .SetStage(w, d.stages[w].(previous := Whole(d.target), accepted := true))
  }

  /** Both images have been read; what is there now may be yet another one. */
  predicate HasRead(d: Disk, w: nat, k: Worker) {
    w in d.stages && k.pc.Digested? && k.signed.Some? && k.verified.Some? && Newer(d, w)
  }

  function Approved(d: Disk, w: nat, k: Worker): Approval
    requires HasRead(d, w, k)
  {
    Approval(k.signed.value, k.verified.value, d.stages[w].candidate.value)
  }

  lemma BacksUp(d: Disk, w: nat, k: Worker, mode: Mode, before: seq<Point>) returns (trace: seq<Point>)
    requires IsTrace(w, before) && Last(before) == Point(d, k) && HasRead(d, w, k)
    ensures IsTrace(w, trace) && trace[0] == before[0]
    ensures var d' :=
            d.(approved := d.approved[w := Approved(d, w, k)]).SetStage(w, d.stages[w].(previous := Whole(d.target)));
            Last(trace) == Point(d', k.(pc := BackedUp, mode := mode))
  {
    trace := Extend(w, before, ReadVersion(true, mode));
    trace := Extend(w, trace, BeginBackup);
    trace := Extend(w, trace, EndBackup);
  }

  lemma GoesToWindow(d: Disk, w: nat, k: Worker, mode: Mode, before: seq<Point>) returns (trace: seq<Point>)
    requires IsTrace(w, before) && Last(before) == Point(d, k) && HasRead(d, w, k)
    ensures IsTrace(w, trace) && trace[0] == before[0]
    ensures Last(trace) == Point(InTransit(d, w, mode, Approved(d, w, k)), k.(pc := Stopped, mode := mode))
  {
    trace := BacksUp(d, w, k, mode, before);
    trace := Extend(w, trace, WriteJournal(false));
    trace := Extend(w, trace, WriteAccepted);
    assert Last(trace) == Point(InTransit(d, w, mode, Approved(d, w, k)), k.(pc := Accepted, mode := mode));
    trace := Extend(w, trace, ParentLeft);
    trace := Extend(w, trace, Stop(true));
  }

  function Committed(d: Disk, w: nat, mode: Mode): Disk
    requires Promising(d, w)
  {
    InTransit(d, w, mode, Approve(d.stages[w].candidate.value))
  }

  lemma ReachesWindow(d: Disk, w: nat, mode: Mode) returns (trace: seq<Point>)
    requires Promising(d, w)
    ensures IsTrace(w, trace) && trace[0] == Point(d, Fresh)
    ensures Last(trace) == Point(Committed(d, w, mode), Verified(Stopped, mode, d.stages[w].candidate))
  {
    var signed := Signs(d, w);
    var read := Extend(w, signed, TakeDigest);
    trace := GoesToWindow(d, w, Verified(Digested, Manual, d.stages[w].candidate), mode, read);
  }

  /** What a start-script upgrade leaves behind when it succeeds: its nonce is on file and in an environment. */
  function Upgraded(d: Disk, w: nat): Disk
    requires Promising(d, w)
  {
    var nonce := StageNonce(w);
    var candidate := d.stages[w].candidate.value;
    d.(target := candidate, nonce := Some(nonce), issued := d.issued + {nonce},
       approved := d.approved[w := Approve(candidate)],
       committed := d.committed + [Commit(w, Approve(candidate))])
    .SetStage(w, Stage(None, Whole(d.target), true, Some(Succeeded)))
  }

  function Swapped(d: Disk, w: nat, mode: Mode): Disk
    requires Promising(d, w)
  {
    Committed(d, w, mode).(nonce := Some(StageNonce(w)), target := d.stages[w].candidate.value)
    .SetStage(w, Stage(None, Whole(d.target), true, None))
  }

  lemma SwapsExecutable(d: Disk, w: nat, k: Worker, before: seq<Point>) returns (trace: seq<Point>)
    requires IsTrace(w, before) && Last(before) == Point(d, k) && w in d.stages && k.pc.Stopped?
    requires k.verified.Some? && d.stages[w].candidate == k.verified
    ensures IsTrace(w, trace) && trace[0] == before[0]
    ensures Last(trace) == Point(d.(nonce := Some(StageNonce(w)), target := k.verified.value)
                                 .SetStage(w, d.stages[w].(candidate := None)), k.At(Upgrade.Replaced))
  {
    trace := Extend(w, before, Recheck);
    trace := Extend(w, trace, WriteNonce);
    trace := Extend(w, trace, Replace);
  }

  lemma Swaps(d: Disk, w: nat, mode: Mode) returns (trace: seq<Point>)
    requires Promising(d, w)
    ensures IsTrace(w, trace) && trace[0] == Point(d, Fresh)
    ensures Last(trace) == Point(Swapped(d, w, mode), Verified(Upgrade.Replaced, mode, d.stages[w].candidate))
  {
    var window := ReachesWindow(d, w, mode);
    trace := SwapsExecutable(Committed(d, w, mode), w, Verified(Stopped, mode, d.stages[w].candidate), window);
  }

  /** The new Portal was started by script, and one was seen stable: the transaction ends in success. */
  lemma EndsInSuccess(d: Disk, w: nat, k: Worker, before: seq<Point>) returns (trace: seq<Point>)
    requires IsTrace(w, before) && Last(before) == Point(d, k) && k.pc.Replaced? && k.mode.StartScript?
    requires w in d.stages && w in d.approved && d.Owns(w) && d.nonce.Some?
    ensures IsTrace(w, trace) && trace[0] == before[0] && Last(trace).worker.pc.Gone?
    ensures Last(trace).disk
            == d.(issued := d.issued + {d.nonce.value}, journal := None,
                  committed := d.committed + [Commit(w, d.approved[w])])
                                 .SetStage(w, d.stages[w].(result := Some(Succeeded)))
  {
    trace := Extend(w, before, Step.Restart(true));
    trace := Extend(w, trace, AwaitReady(true));
    trace := Commits(d.(issued := d.issued + {d.nonce.value}), w, k.At(Finishing(Succeeded)), trace);
  }

  lemma Commits(d: Disk, w: nat, k: Worker, before: seq<Point>) returns (trace: seq<Point>)
    requires IsTrace(w, before) && Last(before) == Point(d, k) && k.pc == Finishing(Succeeded) && w in d.stages
             && w in d.approved
    ensures IsTrace(w, trace) && trace[0] == before[0] && Last(trace).worker.pc.Gone?
    ensures Last(trace).disk == d.(journal := None, committed := d.committed + [Commit(w, d.approved[w])])
                                 .SetStage(w, d.stages[w].(result := Some(Succeeded)))
  {
    trace := Extend(w, before, WriteResult);
    trace := Extend(w, trace, RemoveJournal);
    trace := Extend(w, trace, Exit);
  }

  lemma Succeeds(d: Disk, w: nat) returns (trace: seq<Point>)
    requires Promising(d, w)
    ensures IsTrace(w, trace) && trace[0] == Point(d, Fresh)
    ensures Last(trace).worker.pc.Gone? && Last(trace).disk == Upgraded(d, w)
  {
    var swapped := Swaps(d, w, StartScript);
    trace := EndsInSuccess(Swapped(d, w, StartScript), w,
      Verified(Upgrade.Replaced, StartScript, d.stages[w].candidate), swapped);
  }

  function Asked(d: Disk, w: nat): Disk {
    d.(command := Some(Command(w, d.nextCommand, d.session)), nextCommand := d.nextCommand + 1)
  }

  /** Under a supervisor, up to waiting for the new Portal. */
  lemma Waits(d: Disk, w: nat) returns (trace: seq<Point>)
    requires Promising(d, w)
    ensures IsTrace(w, trace) && trace[0] == Point(d, Fresh)
    ensures Last(trace)
            == Point(Asked(Swapped(d, w, Supervisor), w), Verified(Waiting, Supervisor, d.stages[w].candidate))
  {
    trace := Swaps(d, w, Supervisor);
    trace := Extend(w, trace, Step.Restart(true));
  }

  /** The wait fails; back to waiting for the old Portal. */
  lemma WaitsAgain(d: Disk, w: nat, k: Worker) returns (trace: seq<Point>)
    requires w in d.stages && d.stages[w].previous.Whole? && k.pc.Waiting? && k.mode.Supervisor?
    ensures IsTrace(w, trace) && trace[0] == Point(d, k)
    ensures Last(trace)
            == Point(Asked(d.(target := d.stages[w].previous.image, temporary := Absent), w), k.At(RWaiting))
  {
    trace := [Point(d, k)];
    trace := Extend(w, trace, AwaitReady(false));
    trace := Extend(w, trace, StopAgain(true));
    trace := Extend(w, trace, BeginRestore);
    trace := Extend(w, trace, EndRestore);
    assert Last(trace) == Point(d.(temporary := d.stages[w].previous), k.At(RCopied));
    trace := Extend(w, trace, PutBack);
    trace := Extend(w, trace, RestartOld(true, true));
  }

  /** The old Portal was seen stable: the transaction ends rolled back. */
  lemma EndsRolledBack(d: Disk, w: nat, k: Worker) returns (trace: seq<Point>)
    requires w in d.stages && k.pc.RWaiting? && k.verified.Some? && d.stages[w].accepted
    ensures IsTrace(w, trace) && trace[0] == Point(d, k) && Last(trace).worker.pc.Gone?
    ensures Last(trace).disk == d.(journal := None).SetStage(w, d.stages[w].(result := Some(RolledBack)))
  {
    trace := [Point(d, k)];
    trace := Extend(w, trace, AwaitOld(true));
    trace := Extend(w, trace, WriteResult);
    trace := Extend(w, trace, RemoveJournal);
    assert Last(trace)
        == Point(d.(journal := None).SetStage(w, d.stages[w].(result := Some(RolledBack))), k.At(Rejecting));
    trace := Extend(w, trace, Reject);
    trace := Extend(w, trace, Exit);
  }

  // ---------------------------------------------------------------- runs of everybody together

  ghost predicate Reached(s0: Launching, s: Launching) {
    exists evs :: Launches.RunOf(s0, evs) && Launches.After(s0, evs) == s
  }

  lemma {:induction false} RunsJoin(s: Launching, evs: seq<Launches.Event>, more: seq<Launches.Event>)
    requires Launches.RunOf(s, evs) && Launches.RunOf(Launches.After(s, evs), more)
    ensures Launches.RunOf(s, evs + more)
            && Launches.After(s, evs + more) == Launches.After(Launches.After(s, evs), more)
    decreases |evs|
  {
    if evs == [] {
      assert evs + more == more;
    } else {
      assert (evs + more)[1..] == evs[1..] + more;
      RunsJoin(Launches.Apply(s, evs[0]), evs[1..], more);
    }
  }

  lemma Then(s0: Launching, s: Launching, ev: Launches.Event)
    requires Reached(s0, s) && Launches.Possible(s, ev)
    ensures Reached(s0, Launches.Apply(s, ev))
  {
    assert Launches.RunOf(Launches.Apply(s, ev), []) && [ev][1..] == [];
    assert Launches.After(s, [ev]) == Launches.Apply(s, ev);
    ThenEvents(s0, s, [ev]);
  }

  lemma ThenEvents(s0: Launching, s: Launching, more: seq<Launches.Event>)
    requires Reached(s0, s) && Launches.RunOf(s, more)
    ensures Reached(s0, Launches.After(s, more))
  {
    var evs :| Launches.RunOf(s0, evs) && Launches.After(s0, evs) == s;
    RunsJoin(s0, evs, more);
  }

  /** Everything but the upgrade itself and its history of askers. */
  ghost predicate SameLaunchers(s: Launching, s': Launching) {
    s'.supervisor == s.supervisor && s'.nextToken == s.nextToken && s'.starts == s.starts && s'.launches == s.launches
  }

  lemma {:induction false} ThenRun(s0: Launching, s: Launching, evs: seq<Upgrade.Event>) returns (s': Launching)
    requires Reached(s0, s) && Upgrade.RunOf(s.up, evs) && !s.Shared()
    ensures Reached(s0, s') && SameLaunchers(s, s') && s'.up == Upgrade.After(s.up, evs)
    decreases |evs|
  {
    if evs == [] {
      return s;
    }
    Then(s0, s, Upgrading(evs[0]));
    s' := ThenRun(s0, Launches.Apply(s, Upgrading(evs[0])), evs[1..]);
  }

  lemma ThenTrace(s0: Launching, s: Launching, w: nat, trace: seq<Point>) returns (s': Launching)
    requires Reached(s0, s) && !s.Shared() && LockInv(s.up) && (s.up.lock.None? || s.up.lock == Some(w))
    requires IsTrace(w, trace) && w in s.up.workers && trace[0] == Point(s.up.disk, s.up.workers[w])
             && !s.up.workers[w].pc.Gone?
    ensures Reached(s0, s') && SameLaunchers(s, s')
    ensures s'.up == WithWorker(s.up, w, Last(trace).worker).(disk := Last(trace).disk)
  {
    var evs := TraceIsRun(s.up, w, trace);
    s' := ThenRun(s0, s, evs);
  }

  /** A worker is launched and goes its whole way, up to where the trace ends. */
  lemma ThenWorker(s0: Launching, s: Launching, w: nat, trace: seq<Point>) returns (s': Launching)
    requires Reached(s0, s) && !s.Shared() && s.up.lock.None? && s.up.workers == map[] && w in s.up.disk.stages
    requires IsTrace(w, trace) && trace[0] == Point(s.up.disk, Fresh)
    ensures Reached(s0, s') && SameLaunchers(s, s') && s'.up.disk == Last(trace).disk
    ensures s'.up.workers == if Last(trace).worker.pc.Gone? then map[] else map[w := Last(trace).worker]
    ensures s'.up.lock == if Last(trace).worker.pc.HoldsLock() then Some(w) else None
  {
    Then(s0, s, Upgrading(Upgrade.Launch(w)));
    s' := ThenTrace(s0, Launches.Apply(s, Upgrading(Upgrade.Launch(w))), w, trace);
  }

  // ---------------------------------------------------------------- a start that an earlier transaction left behind

  function Release(patch: nat): Image {
    Image(Version(0, 1, patch), [])
  }

  const Pristine: Launching :=
    Launching(System(Disk(Release(0), Absent, None, None, 0, None, 0, map[], Release(0), [], map[], {}), map[], None),
              None, 1, map[], {}, [])

  /** Two newer releases are staged. */
  lemma TwoStages() returns (s: Launching)
    ensures Launches.Initial(Pristine) && Reached(Pristine, s) && SameLaunchers(Pristine, s) && s.up.workers == map[]
            && s.up.lock.None?
    ensures s.up.disk == Pristine.up.disk.SetStage(0, Stage(Some(Release(1)), Absent, false, None))
                                          .SetStage(1, Stage(Some(Release(2)), Absent, false, None))
  {
    assert Launches.RunOf(Pristine, []) && Launches.After(Pristine, []) == Pristine;
    Then(Pristine, Pristine, Upgrading(Submit(0, Release(1))));
    var one := Launches.Apply(Pristine, Upgrading(Submit(0, Release(1))));
    Then(Pristine, one, Upgrading(Submit(1, Release(2))));
    s := Launches.Apply(one, Upgrading(Submit(1, Release(2))));
  }

  /** The first stage upgrades by start script; a process it started passes the guard in the second one's window. */
  lemma StaleStartHappens() returns (s: Launching)
    ensures Launches.Initial(Pristine) && Reached(Pristine, s)
    ensures Launches.InWindow(s, 1) && s.launches == [DirectLaunch]
  {
    var staged := TwoStages();
    var first := Succeeds(staged.up.disk, 0);
    var done := ThenWorker(Pristine, staged, 0, first);
    var second := ReachesWindow(done.up.disk, 1, StartScript);
    var window := ThenWorker(Pristine, done, 1, second);
    StaleNoncePasses(window, 1, 0);
    var evs := [StartBegins(0, window.up.disk.nonce, false), StartReadsJournal(0), StartComparesNonce(0)];
    ThenEvents(Pristine, window, evs);
    s := Launches.After(window, evs);
  }

  // ---------------------------------------------------------------- a start that carries the mark

  lemma ThenStep(s0: Launching, s: Launching, ev: Launches.Event) returns (s': Launching)
    requires Reached(s0, s) && Launches.Possible(s, ev)
    ensures Reached(s0, s') && s' == Launches.Apply(s, ev)
  {
    Then(s0, s, ev);
    s' := Launches.Apply(s, ev);
  }

  /** A start whose environment carries the mark from outside passes the guard in the window although it carries no
      nonce, the new one is on file, and no supervisor ever ran. */
  lemma MarkedStartHappens() returns (s: Launching)
    ensures Launches.Initial(Pristine) && Reached(Pristine, s) && Launches.InWindow(s, 1) && s.up.workers[1].pc.Nonced?
    ensures s.up.disk.nonce == Some(StageNonce(1)) && s.nextToken == Pristine.nextToken && s.launches == [DirectLaunch]
  {
    var staged := TwoStages();
    var trace := ReachesWindow(staged.up.disk, 1, StartScript);
    trace := Extend(1, trace, Recheck);
    trace := Extend(1, trace, WriteNonce);
    var window := ThenWorker(Pristine, staged, 1, trace);
    var begun := ThenStep(Pristine, window, StartBegins(0, None, true));
    s := ThenStep(Pristine, begun, StartIsTrusted(0));
  }

  // ---------------------------------------------------------------- a candidate that does not hold still

  /** The old release under another name: neither signed nor newer. */
  const Impostor := Image(Version(0, 1, 0), [1])

  lemma ThenExchanges(s0: Launching, s: Launching, image: Image) returns (s': Launching)
    requires Reached(s0, s) && Upgrade.Possible(s.up, Tamper(1, Some(image)))
    ensures Reached(s0, s')
    ensures s' == s.(up := s.up.(disk := s.up.disk.SetStage(1, s.up.disk.stages[1].(candidate := Some(image)))))
  {
    s' := ThenStep(s0, s, Upgrading(Tamper(1, Some(image))));
  }

  /** The signature is checked on one image, another one is hashed, and the version is read from the first again: the
      one that was hashed is installed. */
  lemma ExchangedCandidateInstalls() returns (s: Launching)
    ensures Launches.Initial(Pristine) && Reached(Pristine, s)
    ensures s.up.disk.journal.None? && s.up.disk.target == Impostor
    ensures s.up.disk.committed == [Commit(1, Approval(Release(2), Impostor, Release(2)))]
    ensures !Increasing(s.up.disk.initial, s.up.disk.committed)
  {
    var staged := TwoStages();
    var signs := Signs(staged.up.disk, 1);
    var signed := ThenWorker(Pristine, staged, 1, signs);
    var digested := ThenHashesImpostor(signed);
    s := ThenInstallsImpostor(digested);
    assert !Impostor.version.NewerThan(Before(Release(0), s.up.disk.committed, 0));
  }

  function Here(s: Launching, w: nat): seq<Point>
    requires w in s.up.workers
  {
    [Point(s.up.disk, s.up.workers[w])]
  }

  lemma ThenHashesImpostor(s: Launching) returns (s': Launching)
    requires Reached(Pristine, s) && !s.Shared() && s.up.lock == Some(1) && 1 in s.up.disk.stages
    requires s.up.workers == map[1 := Worker(Signed, Manual, Some(Release(2)), None)]
    ensures Reached(Pristine, s') && SameLaunchers(s, s') && s'.up.lock == Some(1)
    ensures s'.up.workers == map[1 := Worker(Digested, Manual, Some(Release(2)), Some(Impostor))]
    ensures s'.up.disk == s.up.disk.SetStage(1, s.up.disk.stages[1].(candidate := Some(Impostor)))
  {
    var exchanged := ThenExchanges(Pristine, s, Impostor);
    var digests := Extend(1, Here(exchanged, 1), TakeDigest);
    s' := ThenTrace(Pristine, exchanged, 1, digests);
  }

  /** The impostor has been hashed. For the version check the signed release is there, for the rename the impostor. */
  lemma ThenInstallsImpostor(s: Launching) returns (s': Launching)
    requires Reached(Pristine, s) && !s.Shared() && LockInv(s.up) && s.up.lock == Some(1)
    requires s.up.workers == map[1 := Worker(Digested, Manual, Some(Release(2)), Some(Impostor))]
    requires 1 in s.up.disk.stages && s.up.disk.stages[1].result.None? && s.up.disk.target == Release(0)
    requires s.up.disk.committed == [] && s.up.disk.initial == Release(0)
    ensures Reached(Pristine, s') && s'.up.disk.journal.None? && s'.up.disk.target == Impostor
            && s'.up.disk.initial == Release(0)
    ensures s'.up.disk.committed == [Commit(1, Approval(Release(2), Impostor, Release(2)))]
  {
    var back := ThenExchanges(Pristine, s, Release(2));
    var goes := GoesToWindow(back.up.disk, 1, back.up.workers[1], StartScript, Here(back, 1));
    var window := ThenTrace(Pristine, back, 1, goes);
    var again := ThenExchanges(Pristine, window, Impostor);
    var swaps := SwapsExecutable(again.up.disk, 1, again.up.workers[1], Here(again, 1));
    s' := ThenSucceeds(again, swaps);
  }

  /** From the rename to the end. */
  lemma ThenSucceeds(s: Launching, swaps: seq<Point>) returns (s': Launching)
    requires Reached(Pristine, s) && !s.Shared() && LockInv(s.up) && s.up.lock == Some(1) && 1 in s.up.workers
    requires IsTrace(1, swaps) && swaps[0] == Point(s.up.disk, s.up.workers[1]) && !s.up.workers[1].pc.Gone?
    requires Last(swaps).worker.pc.Replaced? && Last(swaps).worker.mode.StartScript? && Last(swaps).disk.nonce.Some?
    requires 1 in Last(swaps).disk.stages && 1 in Last(swaps).disk.approved && Last(swaps).disk.Owns(1)
    ensures Reached(Pristine, s') && s'.up.disk.journal.None? && s'.up.disk.target == Last(swaps).disk.target
    ensures s'.up.disk.initial == Last(swaps).disk.initial
    ensures s'.up.disk.committed == Last(swaps).disk.committed + [Commit(1, Last(swaps).disk.approved[1])]
  {
    var ends := EndsInSuccess(Last(swaps).disk, 1, Last(swaps).worker, swaps);
    s' := ThenTrace(Pristine, s, 1, ends);
  }

  // ---------------------------------------------------------------- a decision that outlives its transaction

  /** The supervisor reads a command and the journal it belongs to. */
  lemma ThenDecides(s0: Launching, s: Launching) returns (s': Launching)
    requires Reached(s0, s) && s.supervisor.Some? && s.supervisor.value.intent.Idle? && !s.supervisor.value.gate
    requires s.supervisor.value.Matches(s.up.disk.command, s.up.disk.journal)
    ensures Reached(s0, s')
    ensures s' == s.(supervisor := Some(s.supervisor.value.(intent := ForCommand(s.up.disk.command.value))))
  {
    Then(s0, s, ReadsCommand);
    var saw := Launches.Apply(s, ReadsCommand);
    Then(s0, saw, ReadsJournal(true));
    s' := Launches.Apply(saw, ReadsJournal(true));
  }

  lemma ThenLaunches(s0: Launching, s: Launching) returns (s': Launching)
    requires Reached(s0, s) && s.supervisor.Some? && s.supervisor.value.intent.ForCommand?
    ensures Reached(s0, s')
    ensures var sup := s.supervisor.value;
            s' == s.(supervisor := Some(sup.(handled := Some(sup.intent.chosen.id), intent := Idle)),
                     launches := s.launches + [CommandLaunch(sup.token, sup.intent.chosen.id)])
  {
    Then(s0, s, Launches);
    s' := Launches.Apply(s, Launches);
  }

  /** The second stage goes to its window while the supervisor still holds a decision for the first. */
  lemma WindowUnderDecision(s0: Launching, s: Launching) returns (s': Launching)
    requires Reached(s0, s) && s.supervisor.Some? && s.supervisor.value.intent.ForCommand? && !s.Shared()
    requires s.up.workers == map[] && s.up.lock.None? && Promising(s.up.disk, 1)
    ensures Reached(s0, s') && Launches.InWindow(s', 1)
    ensures s'.launches == s.launches + [CommandLaunch(s.supervisor.value.token, s.supervisor.value.intent.chosen.id)]
  {
    var trace := ReachesWindow(s.up.disk, 1, Supervisor);
    var window := ThenWorker(s0, s, 1, trace);
    s' := ThenLaunches(s0, window);
  }

  lemma Supervised() returns (s: Launching)
    ensures Launches.Initial(Pristine) && Reached(Pristine, s) && s.supervisor == Some(Watcher(1, None, false, Idle))
            && s.starts == map[] && s.launches == []
    ensures s.up.workers == map[] && s.up.lock.None? && s.up.disk.journal.None? && s.up.disk.target == Release(0)
    ensures s.up.disk.stages
            == map[0 := Stage(Some(Release(1)), Absent, false, None), 1 := Stage(Some(Release(2)), Absent, false, None)]
    ensures s.up.disk.session == 1 && s.up.disk.nextCommand == 0
  {
    var staged := TwoStages();
    Then(Pristine, staged, SupervisorStarts);
    s := Launches.Apply(staged, SupervisorStarts);
  }

  /** Holding its decision for the first request, the supervisor launches only when the second one is on file, and
      decides for that one too before the transaction ends. */
  lemma ThenRollsBackPending(s0: Launching, s: Launching) returns (s': Launching)
    requires Reached(s0, s) && !s.Shared() && LockInv(s.up) && s.up.lock == Some(0)
    requires s.up.workers.Keys == {0} && s.up.workers[0].pc.Waiting? && s.up.workers[0].mode.Supervisor?
    requires 0 in s.up.disk.stages && s.up.disk.Owns(0) && s.up.disk.stages[0].previous.Whole?
    requires s.up.workers[0].verified.Some? && s.up.disk.stages[0].accepted
    requires s.supervisor.Some? && !s.supervisor.value.gate && s.supervisor.value.token == s.up.disk.session
    requires s.supervisor.value.intent.ForCommand? && s.supervisor.value.intent.chosen.id < s.up.disk.nextCommand
    ensures Reached(s0, s') && !s'.Shared() && s'.up.workers == map[] && s'.up.lock.None?
    ensures s'.launches == s.launches + [CommandLaunch(s.supervisor.value.token, s.supervisor.value.intent.chosen.id)]
    ensures s'.supervisor.Some? && s'.supervisor.value.token == s.supervisor.value.token
    ensures s'.supervisor.value.intent == ForCommand(Command(0, s.up.disk.nextCommand, s.up.disk.session))
    ensures s'.up.disk.journal.None? && s'.up.disk.target == s.up.disk.stages[0].previous.image
    ensures s'.up.disk.stages == s.up.disk.stages[0 := s.up.disk.stages[0].(result := Some(RolledBack))]
  {
    var back := WaitsAgain(s.up.disk, 0, s.up.workers[0]);
    var again := ThenTrace(s0, s, 0, back);
    var launched := ThenLaunches(s0, again);
    var pending := ThenDecides(s0, launched);
    var ends := EndsRolledBack(pending.up.disk, 0, pending.up.workers[0]);
    s' := ThenTrace(s0, pending, 0, ends);
  }

  /** The first stage fails and rolls back. The supervisor acts late on its first request, and Portal dies again after
      the worker has seen it stable: so a decision for the second request is pending when the transaction ends. */
  lemma StaleDecisionHappens() returns (s: Launching)
    ensures Launches.Initial(Pristine) && Reached(Pristine, s) && Launches.InWindow(s, 1)
    ensures s.launches == [CommandLaunch(1, 0), CommandLaunch(1, 1)]
  {
    var start := Supervised();
    var d := start.up.disk;
    var waits := Waits(d, 0);
    var waiting := ThenWorker(Pristine, start, 0, waits);
    var decided := ThenDecides(Pristine, waiting);
    var ended := ThenRollsBackPending(Pristine, decided);
    s := WindowUnderDecision(Pristine, ended);
  }
}
