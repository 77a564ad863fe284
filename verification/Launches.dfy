/**
 Who may start Portal while an upgrade is under way: the session supervisor's loop and direct starts, against the
 workers of module Upgrade, over one lock file that workers take exclusively and launches share.
 */
module Launches {
  import opened Basics
  import opened Upgrade

  /** Where the supervisor stands between two looks at the files. */
  datatype Intent =
    | Idle
    | SawCommand(seen: Option<Command>)
    | WantsGate
    | HasGate
    | Ordinary
    | ForCommand(chosen: Command)

  /** `handled` is the command it launched for last; `gate` is its hold on the shared lock. */
  datatype Watcher = Watcher(token: nat, handled: Option<nat>, gate: bool, intent: Intent)
  {
    /** A command counts only for the transaction on file, for this supervisor, and once. */
    predicate Matches(seen: Option<Command>, journal: Option<Journal>) {
      && seen.Some? && journal.Some? && seen.value.stage == journal.value.stage
      && Some(seen.value.id) != handled && seen.value.owner == token
    }

    function Decide(journal: Option<Journal>, due: bool): Watcher
      requires intent.SawCommand?
    {
      this.(intent := if Matches(intent.seen, journal) then ForCommand(intent.seen.value)
                      else if journal.None? && due then WantsGate else Idle)
    }

    function TakeGate(free: bool): Watcher {
      if free then this.(gate := true, intent := HasGate) else this.(intent := Idle)
    }

    function Recheck(journal: Option<Journal>): Watcher {
      if journal.None? then this.(intent := Ordinary) else this.(gate := false, intent := Idle)
    }

    function Done(): Watcher {
      this.(handled := if intent.ForCommand? then Some(intent.chosen.id) else handled, intent := Idle)
    }
  }

  /** A start in its startup guard: `given` is the nonce its environment carries, `supervised` whether it carries
      the mark of a supervised Portal. The mark is a variable like any other, so any start may carry it. */
  datatype Attempt = Attempt(given: Option<Nonce>, supervised: bool, stand: Stand)
  datatype Stand = Begins | SawJournal | WantsLock | HasLock | Holding

  datatype Launched =
    | OrdinaryLaunch
    | CommandLaunch(token: nat, command: nat)
    | DirectLaunch

  /** `asked` and `launches` are history: the stages that have asked for a restart, and every launch. */
  datatype Launching = Launching(
    up: System,
    supervisor: Option<Watcher>,
    nextToken: nat,
    starts: map<nat, Attempt>,
    asked: set<nat>,
    launches: seq<Launched>)
  {
    ghost predicate Shared() {
      || (supervisor.Some? && supervisor.value.gate)
      || (exists p :: p in starts && (starts[p].stand.HasLock? || starts[p].stand.Holding?))
    }

    function Intends(intent: Intent): Launching
      requires supervisor.Some?
    {
      this.(supervisor := Some(supervisor.value.(intent := intent)))
    }

    function Stands(p: nat, stand: Stand): Launching
      requires p in starts
    {
      this.(starts := starts[p := starts[p].(stand := stand)])
    }
  }

  datatype Event =
    | Upgrading(ev: Upgrade.Event)
    | SupervisorStarts | SupervisorStops
    | ReadsCommand | ReadsJournal(due: bool) | TakesGate | RechecksJournal | Launches | ClosesGate
    | StartBegins(p: nat, given: Option<Nonce>, supervised: bool) | StartIsTrusted(p: nat)
    | StartReadsJournal(p: nat) | StartComparesNonce(p: nat)
    | StartTakesLock(p: nat) | StartRechecksJournal(p: nat) | StartEnds(p: nat)

  ghost predicate Possible(s: Launching, ev: Event) {
    match ev
    case Upgrading(up) =>
      Upgrade.Possible(s.up, up) && (up.Work? && up.step.TakeLock? ==> !s.Shared())
    case SupervisorStarts => s.supervisor.None?
    case SupervisorStops => s.supervisor.Some?
    case ReadsCommand => s.supervisor.Some? && s.supervisor.value.intent.Idle? && !s.supervisor.value.gate
    case ReadsJournal(_) => s.supervisor.Some? && s.supervisor.value.intent.SawCommand?
    case TakesGate => s.supervisor.Some? && s.supervisor.value.intent.WantsGate?
    case RechecksJournal => s.supervisor.Some? && s.supervisor.value.intent.HasGate?
    case Launches =>
      s.supervisor.Some? && (s.supervisor.value.intent.Ordinary? || s.supervisor.value.intent.ForCommand?)
    case ClosesGate => s.supervisor.Some? && s.supervisor.value.intent.Idle?
    case StartBegins(p, given, _) => p !in s.starts && (given.Some? ==> given.value in s.up.disk.issued)
    case StartIsTrusted(p) => p in s.starts && s.starts[p].stand.Begins? && s.starts[p].supervised
    case StartReadsJournal(p) => p in s.starts && s.starts[p].stand.Begins? && !s.starts[p].supervised
    case StartComparesNonce(p) => p in s.starts && s.starts[p].stand.SawJournal?
    case StartTakesLock(p) => p in s.starts && s.starts[p].stand.WantsLock?
    case StartRechecksJournal(p) => p in s.starts && s.starts[p].stand.HasLock?
    case StartEnds(p) => p in s.starts
  }

  /** Only a restart of the new or of the restored executable asks for a launch. */
  function Asking(ev: Upgrade.Event): set<nat> {
    if ev.Work? && (ev.step.Restart? || ev.step.RestartOld?) then {ev.w} else {}
  }

  ghost function Apply(s: Launching, ev: Event): Launching
    requires Possible(s, ev)
  {
    var d := s.up.disk;
    match ev
    case Upgrading(up) => s.(up := Upgrade.Apply(s.up, up), asked := s.asked + Asking(up))
    case SupervisorStarts =>
      s.(supervisor := Some(Watcher(s.nextToken, None, false, Idle)), nextToken := s.nextToken + 1,
         up := s.up.(disk := d.(session := s.nextToken, nonce := Some(SessionNonce(s.nextToken)))))
    case SupervisorStops => s.(supervisor := None)
    case ReadsCommand => s.Intends(SawCommand(d.command))
    case ReadsJournal(due) => s.(supervisor := Some(s.supervisor.value.Decide(d.journal, due)))
    case TakesGate => s.(supervisor := Some(s.supervisor.value.TakeGate(s.up.lock.None?)))
    case RechecksJournal => s.(supervisor := Some(s.supervisor.value.Recheck(d.journal)))
    case Launches => Launch(s)
    case ClosesGate => s.(supervisor := Some(s.supervisor.value.(gate := false)))
    case StartBegins(p, given, supervised) => s.(starts := s.starts[p := Attempt(given, supervised, Begins)])
    case StartIsTrusted(p) => s.(starts := s.starts - {p}, launches := s.launches + [DirectLaunch])
    case StartReadsJournal(p) =>
      s.Stands(p, if s.starts[p].given.Some? && d.journal.Some? then SawJournal else WantsLock)
    case StartComparesNonce(p) =>
      if d.nonce == s.starts[p].given then s.(starts := s.starts - {p}, launches := s.launches + [DirectLaunch])
      else s.Stands(p, WantsLock)
    case StartTakesLock(p) => if s.up.lock.None? then s.Stands(p, HasLock) else s.(starts := s.starts - {p})
    case StartRechecksJournal(p) =>
      if d.journal.None? then s.Stands(p, Holding).(launches := s.launches + [DirectLaunch])
      else s.(starts := s.starts - {p})
    case StartEnds(p) => s.(starts := s.starts - {p})
  }

  function Launch(s: Launching): Launching
    requires s.supervisor.Some? && (s.supervisor.value.intent.Ordinary? || s.supervisor.value.intent.ForCommand?)
  {
    var sup := s.supervisor.value;
    if sup.intent.ForCommand? then
      s.(supervisor := Some(sup.Done()), launches := s.launches + [CommandLaunch(sup.token, sup.intent.chosen.id)])
    else
      s.(supervisor := Some(sup.Done()), launches := s.launches + [OrdinaryLaunch],
         up := s.up.(disk := s.up.disk.(nonce := Some(LaunchNonce(|s.launches|)))))
  }

  // ---------------------------------------------------------------- invariants

  /** Exclusive and shared holders exclude each other. */
  ghost predicate LockedOut(s: Launching) {
    s.up.lock.Some? ==> !s.Shared()
  }

  ghost predicate GateInv(s: Launching) {
    && LockedOut(s)
    && (s.supervisor.Some? && (s.supervisor.value.intent.HasGate? || s.supervisor.value.intent.Ordinary?) ==>
        s.supervisor.value.gate)
    && (s.supervisor.Some? && s.supervisor.value.intent.Ordinary? ==> s.up.disk.journal.None?)
  }

  /** The forward path up to the first request for a restart. */
  predicate BeforeRestart(pc: Pc) {
    pc.Journaled? || pc.Accepted? || pc.Stopping? || pc.Stopped? || pc.Rechecked? || pc.Nonced? || pc.Replaced?
  }

  ghost predicate HasAsked(u: System, w: nat) {
    && w in u.disk.stages
    && (u.disk.stages[w].result.Some? || (u.disk.Owns(w) && (w in u.workers ==> !BeforeRestart(u.workers[w].pc))))
  }

  ghost predicate AskedInv(s: Launching) {
    forall w :: w in s.asked ==> HasAsked(s.up, w)
  }

  /** A command that was really written; the one on file is the latest. */
  ghost predicate Known(s: Launching, c: Command) {
    && c.stage in s.asked && c.owner <= s.up.disk.session
    && s.up.disk.command.Some? && c.id <= s.up.disk.command.value.id < s.up.disk.nextCommand
  }

  ghost predicate Held(s: Launching, c: Command) {
    || s.up.disk.command == Some(c)
    || (s.supervisor.Some?
        && (s.supervisor.value.intent == SawCommand(Some(c)) || s.supervisor.value.intent == ForCommand(c)))
  }

  ghost predicate CommandsInv(s: Launching) {
    && s.up.disk.session < s.nextToken
    && (s.supervisor.Some? ==> s.supervisor.value.token == s.up.disk.session)
    && (forall c :: Held(s, c) ==> Known(s, c))
  }

  ghost predicate Earlier(launched: Launched, c: Command) {
    launched.CommandLaunch? && launched.token < c.owner ==> launched.command < c.id
  }

  /** Commands are launched in the order they were written. */
  ghost predicate OrderInv(s: Launching) {
    && (forall i, j :: 0 <= i < j < |s.launches| && s.launches[i].CommandLaunch? && s.launches[j].CommandLaunch? ==>
          s.launches[i].command < s.launches[j].command)
    && (forall i :: 0 <= i < |s.launches| && s.launches[i].CommandLaunch? ==>
          && s.launches[i].command < s.up.disk.nextCommand && s.launches[i].token < s.nextToken
          && (s.supervisor.Some? ==> s.launches[i].token <= s.supervisor.value.token)
          && (s.supervisor.Some? && s.launches[i].token == s.supervisor.value.token ==>
                s.supervisor.value.handled.Some? && s.launches[i].command <= s.supervisor.value.handled.value))
    && (forall c, i :: Held(s, c) && 0 <= i < |s.launches| ==> Earlier(s.launches[i], c))
    && (s.supervisor.Some? && s.supervisor.value.handled.Some? ==>
          s.supervisor.value.handled.value < s.up.disk.nextCommand)
    && (s.supervisor.Some? && s.supervisor.value.handled.Some? ==>
          forall c :: Held(s, c) && c.owner == s.supervisor.value.token ==> s.supervisor.value.handled.value <= c.id)
    && (s.supervisor.Some? && s.supervisor.value.intent.ForCommand? ==>
          var c := s.supervisor.value.intent.chosen;
          c.owner == s.supervisor.value.token && Some(c.id) != s.supervisor.value.handled)
  }

  /** The nonce a worker has written is not yet in any environment when it replaces the executable. */
  ghost predicate NonceInv(s: Launching) {
    && s.up.disk.session < s.nextToken
    && (s.up.disk.nonce.Some? && s.up.disk.nonce.value.SessionNonce? ==> s.up.disk.nonce.value.token < s.nextToken)
    && (forall n :: n in s.up.disk.issued && n.StageNonce? ==> n.stage in s.asked)
    && (forall n :: n in s.up.disk.issued && n.SessionNonce? ==> n.token < s.nextToken)
    && (forall w ::
        w in s.up.workers && (s.up.workers[w].pc.Nonced? || s.up.workers[w].pc.Replaced?) ==> FreshNonce(s, w))
  }

  ghost predicate FreshNonce(s: Launching, w: nat) {
    && s.up.disk.nonce.Some? && s.up.disk.nonce.value !in s.up.disk.issued
    && (s.up.disk.nonce.value.StageNonce? ==> s.up.disk.nonce.value.stage == w)
  }

  // ---------------------------------------------------------------- preservation: gate

  lemma LockIsTaken(u: System, ev: Upgrade.Event)
    requires Upgrade.Possible(u, ev) && u.lock.None? && Upgrade.Apply(u, ev).lock.Some?
    ensures ev.Work? && (ev.step.TakeLock? || u.workers[ev.w].pc.HoldsLock())
  {
    if ev.Work? {
      var k := u.workers[ev.w];
      assert WorkPc(u.disk, ev.w, k, ev.step).pc.HoldsLock() ==> k.pc.HoldsLock() || ev.step.TakeLock?;
    }
  }

  lemma JournalIsWritten(u: System, ev: Upgrade.Event)
    requires Upgrade.Possible(u, ev) && u.disk.journal.None? && Upgrade.Apply(u, ev).disk.journal.Some?
    ensures ev.Work? && u.workers[ev.w].pc.HoldsLock()
  {}

  lemma UpgradeStepKeepsGate(s: Launching, up: Upgrade.Event)
    requires GateInv(s) && LockInv(s.up) && Possible(s, Upgrading(up))
    ensures GateInv(Apply(s, Upgrading(up)))
  {
    var u' := Upgrade.Apply(s.up, up);
    if s.up.lock.None? && u'.lock.Some? {
      LockIsTaken(s.up, up);
    }
    if s.up.disk.journal.None? && u'.disk.journal.Some? {
      JournalIsWritten(s.up, up);
    }
  }

  lemma LaunchStepKeepsGate(s: Launching, ev: Event)
    requires GateInv(s) && Possible(s, ev) && !ev.Upgrading?
    ensures GateInv(Apply(s, ev))
  {}

  // ---------------------------------------------------------------- preservation: who has asked

  lemma OwnStepKeepsAsked(d: Disk, w: nat, k: Worker, step: Step)
    requires WorkerInv(d, w, k) && CanStep(d, w, k, step) && InTransaction(d, w) && !BeforeRestart(k.pc)
    ensures var d', k' := WorkDisk(d, w, k, step), WorkPc(d, w, k, step);
            d'.stages[w].result.Some? || (InTransaction(d', w) && !BeforeRestart(k'.pc))
  {
    OwnStepKeepsTransaction(d, w, k, step);
    OwnStepStaysPastRestart(d, w, k, step);
  }

  lemma OwnStepKeepsTransaction(d: Disk, w: nat, k: Worker, step: Step)
    requires WorkerInv(d, w, k) && CanStep(d, w, k, step) && InTransaction(d, w)
    ensures WorkDisk(d, w, k, step).stages[w].result.Some? || InTransaction(WorkDisk(d, w, k, step), w)
  {}

  lemma OwnStepStaysPastRestart(d: Disk, w: nat, k: Worker, step: Step)
    requires WorkerInv(d, w, k) && CanStep(d, w, k, step) && InTransaction(d, w) && !BeforeRestart(k.pc)
    ensures !BeforeRestart(WorkPc(d, w, k, step).pc)
  {}

  lemma AskedKeptByOwner(u: System, w: nat, step: Step)
    requires WorkersInv(u) && Upgrade.Possible(u, Work(w, step)) && HasAsked(u, w) && u.disk.stages[w].result.None?
    ensures HasAsked(Upgrade.Apply(u, Work(w, step)), w)
  {
    assert WorkerInv(u.disk, w, u.workers[w]);
    OwnStepKeepsAsked(u.disk, w, u.workers[w], step);
  }

  lemma AskedKeptByOthers(u: System, v: nat, step: Step, w: nat)
    requires Upgrade.Inv(u) && Upgrade.Possible(u, Work(v, step)) && v != w && HasAsked(u, w)
             && u.disk.stages[w].result.None?
    ensures HasAsked(Upgrade.Apply(u, Work(v, step)), w)
  {
    OthersStandStill(u, w, v, step);
    OthersKeepWorker(u, v, step, w);
    AskedCarries(u, Upgrade.Apply(u, Work(v, step)), w);
  }

  lemma OthersKeepWorker(u: System, v: nat, step: Step, w: nat)
    requires Upgrade.Possible(u, Work(v, step)) && v != w
    ensures var u' := Upgrade.Apply(u, Work(v, step));
            w in u'.workers ==> w in u.workers && u'.workers[w] == u.workers[w]
  {}

  lemma AskedCarries(u: System, u': System, w: nat)
    requires HasAsked(u, w) && w in u'.disk.stages && u'.disk.stages[w] == u.disk.stages[w]
    requires u'.disk.journal == u.disk.journal && (w in u'.workers ==> w in u.workers && u'.workers[w] == u.workers[w])
    ensures HasAsked(u', w)
  {}

  lemma AskedKeptByEnvironment(u: System, ev: Upgrade.Event, w: nat)
    requires Upgrade.Possible(u, ev) && HasAsked(u, w) && !ev.Work?
    ensures HasAsked(Upgrade.Apply(u, ev), w)
  {}

  lemma AskedKept(u: System, ev: Upgrade.Event, w: nat)
    requires Upgrade.Inv(u) && Upgrade.Possible(u, ev) && HasAsked(u, w)
    ensures HasAsked(Upgrade.Apply(u, ev), w)
  {
    if u.disk.stages[w].result.Some? {
      EventKeepsOutcomes(u, ev, w);
    } else if !ev.Work? {
      AskedKeptByEnvironment(u, ev, w);
    } else if ev.w == w {
      AskedKeptByOwner(u, w, ev.step);
    } else {
      AskedKeptByOthers(u, ev.w, ev.step, w);
    }
  }

  lemma AskerHasAsked(u: System, w: nat, step: Step)
    requires WorkersInv(u) && Upgrade.Possible(u, Work(w, step)) && (step.Restart? || step.RestartOld?)
    ensures HasAsked(Upgrade.Apply(u, Work(w, step)), w)
  {
    assert WorkerInv(u.disk, w, u.workers[w]);
  }

  lemma UpgradeStepKeepsAsked(s: Launching, up: Upgrade.Event)
    requires AskedInv(s) && Upgrade.Inv(s.up) && Possible(s, Upgrading(up))
    ensures AskedInv(Apply(s, Upgrading(up)))
  {
    var s' := Apply(s, Upgrading(up));
    forall w | w in s'.asked ensures HasAsked(s'.up, w) {
      if w in s.asked {
        AskedKept(s.up, up, w);
      } else {
        AskerHasAsked(s.up, w, up.step);
      }
    }
  }

  lemma LaunchStepKeepsAsked(s: Launching, ev: Event)
    requires AskedInv(s) && Possible(s, ev) && !ev.Upgrading?
    ensures AskedInv(Apply(s, ev))
  {
    var s' := Apply(s, ev);
    forall w | w in s'.asked ensures HasAsked(s'.up, w) {
      assert HasAsked(s.up, w);
    }
  }

  // ---------------------------------------------------------------- preservation: commands and nonces

  lemma CommandStep(u: System, ev: Upgrade.Event)
    requires Upgrade.Possible(u, ev)
    ensures var d, d' := u.disk, Upgrade.Apply(u, ev).disk;
            && d'.session == d.session
            && ((d'.command == d.command && d'.nextCommand == d.nextCommand)
                || (ev.Work? && Asking(ev) == {ev.w} && d'.command == Some(Command(ev.w, d.nextCommand, d.session))
                    && d'.nextCommand == d.nextCommand + 1))
  {
    if ev.Work? && !Signals(ev.step) {
      MostStepsSignalNothing(u.disk, ev.w, u.workers[ev.w], ev.step);
    }
  }

  predicate Signals(step: Step) {
    step.WriteNonce? || step.Restart? || step.RestartOld?
  }

  lemma MostStepsSignalNothing(d: Disk, w: nat, k: Worker, step: Step)
    requires CanStep(d, w, k, step) && !Signals(step)
    ensures var d' := WorkDisk(d, w, k, step);
            && d'.command == d.command && d'.nextCommand == d.nextCommand && d'.session == d.session
            && d'.nonce == d.nonce && d'.issued == d.issued
  {}

  lemma NonceStep(u: System, ev: Upgrade.Event)
    requires Upgrade.Possible(u, ev)
    ensures var d, d' := u.disk, Upgrade.Apply(u, ev).disk;
            || (d'.nonce == d.nonce && d'.issued == d.issued)
            || (ev.Work? && ev.step.WriteNonce? && d'.nonce == Some(StageNonce(ev.w)) && d'.issued == d.issued)
            || (ev.Work? && ev.step.Restart? && d.nonce.Some? && d'.nonce == d.nonce
                && d'.issued == d.issued + {d.nonce.value})
            || (ev.Work? && ev.step.RestartOld? && d'.nonce == Some(StageNonce(ev.w))
                && d'.issued <= d.issued + {StageNonce(ev.w)})
  {
    if ev.Work? && !Signals(ev.step) {
      MostStepsSignalNothing(u.disk, ev.w, u.workers[ev.w], ev.step);
    }
  }

  lemma UpgradeStepKeepsCommands(s: Launching, up: Upgrade.Event)
    requires CommandsInv(s) && Possible(s, Upgrading(up))
    ensures CommandsInv(Apply(s, Upgrading(up)))
  {
    CommandStep(s.up, up);
    var s' := Apply(s, Upgrading(up));
    forall c | Held(s', c) ensures Known(s', c) {
      if Held(s, c) {
        assert Known(s, c) && Held(s, s.up.disk.command.value);
      }
    }
  }

  lemma LaunchStepKeepsCommands(s: Launching, ev: Event)
    requires CommandsInv(s) && Possible(s, ev) && !ev.Upgrading?
    ensures CommandsInv(Apply(s, ev))
  {
    var s' := Apply(s, ev);
    forall c | Held(s', c) ensures Known(s', c) {
      assert Held(s, c);
    }
  }

  lemma UpgradeStepKeepsOrder(s: Launching, up: Upgrade.Event)
    requires OrderInv(s) && CommandsInv(s) && Possible(s, Upgrading(up))
    ensures OrderInv(Apply(s, Upgrading(up)))
  {
    CommandStep(s.up, up);
    var s' := Apply(s, Upgrading(up));
    forall c | Held(s', c) ensures Held(s, c) || c.id == s.up.disk.nextCommand {}
  }

  lemma LaunchKeepsOrder(s: Launching)
    requires OrderInv(s) && CommandsInv(s) && Possible(s, Launches)
    ensures OrderInv(Launch(s))
  {
    var s' := Launch(s);
    forall c | Held(s', c) ensures Held(s, c) {}
    if s.supervisor.value.intent.ForCommand? {
      var chosen := s.supervisor.value.intent.chosen;
      assert Held(s, chosen) && Known(s, chosen);
      forall i | 0 <= i < |s.launches| && s.launches[i].CommandLaunch? ensures s.launches[i].command < chosen.id {
        assert Earlier(s.launches[i], chosen);
      }
      forall c | Held(s', c) ensures chosen.id <= c.id && Earlier(CommandLaunch(chosen.owner, chosen.id), c) {
        assert s.up.disk.command == Some(c);
      }
    }
  }

  lemma SessionKeepsOrder(s: Launching, ev: Event)
    requires OrderInv(s) && CommandsInv(s) && Possible(s, ev) && (ev.SupervisorStarts? || ev.SupervisorStops?)
    ensures OrderInv(Apply(s, ev))
  {
    var s' := Apply(s, ev);
    forall c | Held(s', c) ensures Held(s, c) && Known(s, c) {
      assert Held(s, c);
    }
  }

  lemma LookKeepsOrder(s: Launching, ev: Event)
    requires OrderInv(s) && Possible(s, ev)
    requires ev.ReadsCommand? || ev.ReadsJournal? || ev.TakesGate? || ev.RechecksJournal? || ev.ClosesGate?
    ensures OrderInv(Apply(s, ev))
  {
    var s' := Apply(s, ev);
    forall c | Held(s', c) ensures Held(s, c) {}
  }

  lemma PassingStartKeepsOrder(s: Launching, ev: Event)
    requires OrderInv(s) && Possible(s, ev)
             && (ev.StartIsTrusted? || ev.StartComparesNonce? || ev.StartRechecksJournal?)
    ensures OrderInv(Apply(s, ev))
  {
    var s' := Apply(s, ev);
    forall c | Held(s', c) ensures Held(s, c) {}
  }

  lemma StartKeepsOrder(s: Launching, ev: Event)
    requires OrderInv(s) && Possible(s, ev)
    requires ev.StartBegins? || ev.StartReadsJournal? || ev.StartTakesLock? || ev.StartEnds?
    ensures OrderInv(Apply(s, ev))
  {
    var s' := Apply(s, ev);
    forall c | Held(s', c) ensures Held(s, c) {}
  }

  lemma OrderKept(s: Launching, ev: Event)
    requires OrderInv(s) && CommandsInv(s) && Possible(s, ev)
    ensures OrderInv(Apply(s, ev))
  {
    match ev
    case Upgrading(up) => UpgradeStepKeepsOrder(s, up);
    case SupervisorStarts => SessionKeepsOrder(s, ev);
    case SupervisorStops => SessionKeepsOrder(s, ev);
    case Launches => LaunchKeepsOrder(s);
    case ReadsCommand => LookKeepsOrder(s, ev);
    case ReadsJournal(_) => LookKeepsOrder(s, ev);
    case TakesGate => LookKeepsOrder(s, ev);
    case RechecksJournal => LookKeepsOrder(s, ev);
    case ClosesGate => LookKeepsOrder(s, ev);
    case StartBegins(_, _, _) => StartKeepsOrder(s, ev);
    case StartIsTrusted(_) => PassingStartKeepsOrder(s, ev);
    case StartReadsJournal(_) => StartKeepsOrder(s, ev);
    case StartComparesNonce(_) => PassingStartKeepsOrder(s, ev);
    case StartTakesLock(_) => StartKeepsOrder(s, ev);
    case StartRechecksJournal(_) => PassingStartKeepsOrder(s, ev);
    case StartEnds(_) => StartKeepsOrder(s, ev);
  }

  // ---------------------------------------------------------------- preservation: nonces

  lemma NoncesKeptByWrite(s: Launching, w: nat)
    requires NonceInv(s) && AskedInv(s) && Upgrade.Inv(s.up) && Possible(s, Upgrading(Work(w, WriteNonce)))
    ensures NonceInv(Apply(s, Upgrading(Work(w, WriteNonce))))
  {
    NonceStep(s.up, Work(w, WriteNonce));
    WriterHasNotAsked(s, w);
    var s' := Apply(s, Upgrading(Work(w, WriteNonce)));
    assert s'.asked == s.asked;
    forall v | v in s'.up.workers && (s'.up.workers[v].pc.Nonced? || s'.up.workers[v].pc.Replaced?)
      ensures FreshNonce(s', v)
    {
      assert v != w ==> s.up.lock == Some(v);
      assert s.up.lock == Some(w);
    }
  }

  lemma WriterHasNotAsked(s: Launching, w: nat)
    requires AskedInv(s) && WorkersInv(s.up) && w in s.up.workers && BeforeRestart(s.up.workers[w].pc)
    ensures w !in s.asked
  {
    assert WorkerInv(s.up.disk, w, s.up.workers[w]);
    assert w in s.asked ==> HasAsked(s.up, w);
  }

  lemma NoncesKeptByRestart(s: Launching, w: nat, step: Step)
    requires NonceInv(s) && LockInv(s.up) && Possible(s, Upgrading(Work(w, step)))
             && (step.Restart? || step.RestartOld?)
    ensures NonceInv(Apply(s, Upgrading(Work(w, step))))
  {
    NonceStep(s.up, Work(w, step));
    var s' := Apply(s, Upgrading(Work(w, step)));
    assert s'.asked == s.asked + {w};
    forall v | v in s'.up.workers ensures !s'.up.workers[v].pc.Nonced? && !s'.up.workers[v].pc.Replaced? {
      if v != w {
        assert s.up.lock == Some(w);
      }
    }
  }

  lemma NoncesKeptByOthers(s: Launching, up: Upgrade.Event)
    requires NonceInv(s) && Possible(s, Upgrading(up))
    requires !(up.Work? && (up.step.WriteNonce? || up.step.Restart? || up.step.RestartOld?))
    ensures NonceInv(Apply(s, Upgrading(up)))
  {
    NonceStep(s.up, up);
    CommandStep(s.up, up);
    var s' := Apply(s, Upgrading(up));
    forall v | v in s'.up.workers && (s'.up.workers[v].pc.Nonced? || s'.up.workers[v].pc.Replaced?)
      ensures FreshNonce(s', v)
    {
      assert v in s.up.workers && (s.up.workers[v].pc.Nonced? || s.up.workers[v].pc.Replaced?);
      assert FreshNonce(s, v);
    }
  }

  lemma NoncesKeptByLaunches(s: Launching, ev: Event)
    requires NonceInv(s) && GateInv(s) && LockInv(s.up) && Possible(s, ev) && !ev.Upgrading?
    ensures NonceInv(Apply(s, ev))
  {
    var s' := Apply(s, ev);
    forall v | v in s'.up.workers && (s'.up.workers[v].pc.Nonced? || s'.up.workers[v].pc.Replaced?)
      ensures FreshNonce(s', v)
    {
      assert FreshNonce(s, v) && s.up.lock == Some(v);
    }
  }

  // ---------------------------------------------------------------- runs

  ghost predicate Inv(s: Launching) {
    Upgrade.Inv(s.up) && GateInv(s) && AskedInv(s) && CommandsInv(s) && OrderInv(s) && NonceInv(s)
  }

  /** Launch steps change nothing the upgrade's own invariants speak about. */
  lemma LaunchStepKeepsUpgrade(s: Launching, ev: Event)
    requires Upgrade.Inv(s.up) && Possible(s, ev) && !ev.Upgrading?
    ensures Upgrade.Inv(Apply(s, ev).up)
  {
    var u, u' := s.up, Apply(s, ev).up;
    assert u'.workers == u.workers && u'.lock == u.lock && SameFiles(u.disk, u'.disk);
    SameFilesKeepDisk(u.disk, u'.disk);
    SameResultsKeepInv(u.disk, u'.disk);
    forall w | w in u'.workers ensures WorkerInv(u'.disk, w, u'.workers[w]) {
      SameFilesKeepWorker(u.disk, u'.disk, w, u.workers[w]);
    }
  }

  lemma NoncesKept(s: Launching, ev: Event)
    requires NonceInv(s) && AskedInv(s) && Upgrade.Inv(s.up) && GateInv(s) && Possible(s, ev)
    ensures NonceInv(Apply(s, ev))
  {
    if !ev.Upgrading? {
      NoncesKeptByLaunches(s, ev);
    } else if ev.ev.Work? && ev.ev.step.WriteNonce? {
      NoncesKeptByWrite(s, ev.ev.w);
    } else if ev.ev.Work? && (ev.ev.step.Restart? || ev.ev.step.RestartOld?) {
      NoncesKeptByRestart(s, ev.ev.w, ev.ev.step);
    } else {
      NoncesKeptByOthers(s, ev.ev);
    }
  }

  lemma EventKeepsInv(s: Launching, ev: Event)
    requires Inv(s) && Possible(s, ev)
    ensures Inv(Apply(s, ev))
  {
    OrderKept(s, ev);
    NoncesKept(s, ev);
    if ev.Upgrading? {
      Upgrade.EventKeepsInv(s.up, ev.ev);
      UpgradeStepKeepsGate(s, ev.ev);
      UpgradeStepKeepsAsked(s, ev.ev);
      UpgradeStepKeepsCommands(s, ev.ev);
    } else {
      LaunchStepKeepsUpgrade(s, ev);
      LaunchStepKeepsGate(s, ev);
      LaunchStepKeepsAsked(s, ev);
      LaunchStepKeepsCommands(s, ev);
    }
  }

  ghost predicate RunOf(s: Launching, evs: seq<Event>)
    decreases |evs|
  {
    evs == [] || (Possible(s, evs[0]) && RunOf(Apply(s, evs[0]), evs[1..]))
  }

  ghost function After(s: Launching, evs: seq<Event>): Launching
    requires RunOf(s, evs)
    decreases |evs|
  {
    if evs == [] then s else After(Apply(s, evs[0]), evs[1..])
  }

  /** Nothing upgraded, nobody launched, no supervisor yet. */
  ghost predicate Initial(s: Launching) {
    && Upgrade.Initial(s.up) && s.up.disk.command.None? && s.up.disk.nonce.None? && s.up.disk.issued == {}
    && s.up.disk.session == 0
    && s.supervisor.None? && s.nextToken == 1 && s.starts == map[] && s.asked == {} && s.launches == []
  }

  lemma InitialSatisfiesInv(s: Launching)
    requires Initial(s)
    ensures Inv(s)
  {}

  lemma {:induction false} RunKeepsInv(s: Launching, evs: seq<Event>)
    requires Inv(s) && RunOf(s, evs)
    ensures Inv(After(s, evs))
    decreases |evs|
  {
    if evs != [] {
      EventKeepsInv(s, evs[0]);
      RunKeepsInv(Apply(s, evs[0]), evs[1..]);
    }
  }

  // ---------------------------------------------------------------- launch discipline

  ghost predicate LaunchesPortal(s: Launching, ev: Event)
    requires Possible(s, ev)
  {
    Apply(s, ev).launches != s.launches
  }

  ghost predicate OrdinaryUnderLock(s: Launching) {
    && (Possible(s, Launches) && s.supervisor.value.intent.Ordinary? ==>
          s.supervisor.value.gate && s.up.disk.journal.None? && s.up.lock.None?)
    && (forall p :: Possible(s, StartRechecksJournal(p)) && LaunchesPortal(s, StartRechecksJournal(p)) ==>
          s.up.disk.journal.None? && s.up.lock.None?)
  }

  lemma GateMeansLock(s: Launching)
    requires GateInv(s)
    ensures OrdinaryUnderLock(s)
  {}

  /** An ordinary launch, by the supervisor or directly, happens under the shared lock with no journal on file and no
      worker holding the lock. */
  lemma OrdinaryLaunchesHoldTheLock(s: Launching, evs: seq<Event>)
    requires Initial(s) && RunOf(s, evs)
    ensures OrdinaryUnderLock(After(s, evs))
  {
    InitialSatisfiesInv(s);
    RunKeepsInv(s, evs);
    GateMeansLock(After(s, evs));
  }

  /** Over all supervisors, no command is launched twice, and commands are launched in the order they were written. */
  lemma CommandsAreLaunchedOnce(s: Launching, evs: seq<Event>)
    requires Initial(s) && RunOf(s, evs)
    ensures var launches := After(s, evs).launches;
            forall i, j :: 0 <= i < j < |launches| && launches[i].CommandLaunch? && launches[j].CommandLaunch? ==>
              launches[i].command < launches[j].command
  {
    InitialSatisfiesInv(s);
    RunKeepsInv(s, evs);
  }

  /** A restart that a worker asks of the recorded supervisor is decided for as soon as that supervisor looks, whatever
      it launched for before. */
  lemma RequestIsHonoured(s: Launching, w: nat, step: Step)
    requires Inv(s) && Possible(s, Upgrading(Work(w, step))) && s.up.workers[w].mode.Supervisor?
    requires step == Restart(true) || step == RestartOld(true, true)
    requires s.supervisor.Some? && s.supervisor.value.intent.Idle? && !s.supervisor.value.gate
    ensures var asked := Apply(s, Upgrading(Work(w, step)));
            && Possible(asked, ReadsCommand)
            && var looked := Apply(asked, ReadsCommand);
            && Possible(looked, ReadsJournal(false))
            && var decided := Apply(looked, ReadsJournal(false)).supervisor;
            && decided.Some? && decided.value.intent.ForCommand?
            && decided.value.intent.chosen == Command(w, s.up.disk.nextCommand, s.up.disk.session)
  {
    RequesterOwnsJournal(s.up, w, step);
    HandledIsOlder(s);
    RequestIsOnFile(s.up.disk, w, s.up.workers[w], step);
  }

  lemma HandledIsOlder(s: Launching)
    requires Inv(s) && s.supervisor.Some?
    ensures s.supervisor.value.token == s.up.disk.session
    ensures s.supervisor.value.handled.Some? ==> s.supervisor.value.handled.value < s.up.disk.nextCommand
  {
    assert CommandsInv(s) && OrderInv(s);
  }

  lemma RequestIsOnFile(d: Disk, w: nat, k: Worker, step: Step)
    requires CanStep(d, w, k, step) && k.mode.Supervisor? && (step == Restart(true) || step == RestartOld(true, true))
    ensures var d' := WorkDisk(d, w, k, step);
            && d'.command == Some(Command(w, d.nextCommand, d.session))
            && d'.journal == d.journal && d'.session == d.session
  {}

  lemma RequesterOwnsJournal(u: System, w: nat, step: Step)
    requires WorkersInv(u) && Upgrade.Possible(u, Work(w, step)) && (step.Restart? || step.RestartOld?)
    ensures u.disk.Owns(w)
  {
    assert WorkerInv(u.disk, w, u.workers[w]);
  }

  ghost predicate InWindow(s: Launching, w: nat) {
    w in s.up.workers && s.up.workers[w].pc.InWindow()
  }

  /** A decision for another transaction than the one under way. */
  ghost predicate StaleDecision(s: Launching, w: nat) {
    s.supervisor.Some? && s.supervisor.value.intent.ForCommand? && s.supervisor.value.intent.chosen.stage != w
  }

  /** A direct start that saw a journal and carries the nonce still on file, before worker `w` has written its own. */
  ghost predicate StaleStart(s: Launching, p: nat, w: nat)
    requires w in s.up.workers
  {
    p in s.starts && s.starts[p].stand.SawJournal? && s.up.disk.nonce == s.starts[p].given
      && !s.up.workers[w].pc.Nonced?
  }

  /** What a start carries was handed out before. */
  ghost predicate GivenInv(s: Launching) {
    forall p :: p in s.starts && s.starts[p].given.Some? ==> s.starts[p].given.value in s.up.disk.issued
  }

  /** The startup guard trusts the mark alone: no lock, no journal, no nonce. */
  ghost predicate MarkedStart(s: Launching, p: nat) {
    p in s.starts && s.starts[p].stand.Begins? && s.starts[p].supervised
  }

  /** The three ways in which Portal can be launched in the window of worker `w`. */
  ghost predicate Exception(s: Launching, w: nat, ev: Event)
    requires w in s.up.workers
  {
    || (ev.Launches? && StaleDecision(s, w))
    || (ev.StartComparesNonce? && StaleStart(s, ev.p, w))
    || (ev.StartIsTrusted? && MarkedStart(s, ev.p))
  }

  lemma DecisionsAreForAskers(s: Launching, w: nat)
    requires CommandsInv(s) && AskedInv(s) && WorkersInv(s.up)
    requires InWindow(s, w) && s.supervisor.Some? && s.supervisor.value.intent.ForCommand?
    ensures s.supervisor.value.intent.chosen.stage != w
  {
    var c := s.supervisor.value.intent.chosen;
    assert Held(s, c) && Known(s, c);
    WriterHasNotAsked(s, w);
  }

  lemma WindowHoldsLock(s: Launching, w: nat)
    requires GateInv(s) && LockInv(s.up) && InWindow(s, w)
    ensures s.up.lock == Some(w) && !s.Shared()
  {}

  lemma SupervisorInWindow(s: Launching, w: nat)
    requires Inv(s) && InWindow(s, w) && Possible(s, Launches)
    ensures StaleDecision(s, w)
  {
    WindowHoldsLock(s, w);
    if s.supervisor.value.intent.ForCommand? {
      DecisionsAreForAskers(s, w);
    }
  }

  lemma StartInWindow(s: Launching, w: nat, p: nat)
    requires NonceInv(s) && GivenInv(s) && InWindow(s, w) && Possible(s, StartComparesNonce(p))
    ensures LaunchesPortal(s, StartComparesNonce(p)) <==> StaleStart(s, p, w)
  {
    if s.up.workers[w].pc.Nonced? {
      assert FreshNonce(s, w);
    }
  }

  lemma RecheckInWindow(s: Launching, w: nat, p: nat)
    requires GateInv(s) && LockInv(s.up) && InWindow(s, w)
    ensures !Possible(s, StartRechecksJournal(p))
  {
    WindowHoldsLock(s, w);
  }

  lemma OtherEventsLaunchNothing(s: Launching, ev: Event)
    requires Possible(s, ev)
    requires !ev.Launches? && !ev.StartIsTrusted? && !ev.StartComparesNonce? && !ev.StartRechecksJournal?
    ensures !LaunchesPortal(s, ev)
  {}

  lemma TrustedLaunches(s: Launching, p: nat)
    requires Possible(s, StartIsTrusted(p))
    ensures LaunchesPortal(s, StartIsTrusted(p)) && MarkedStart(s, p)
  {
    assert |Apply(s, StartIsTrusted(p)).launches| == |s.launches| + 1;
  }

  lemma LaunchGrows(s: Launching)
    requires Possible(s, Launches)
    ensures LaunchesPortal(s, Launches)
  {}

  /** Between the worker's stop and its replacement Portal is launched if and only if the supervisor still acts on a
      decision for another transaction, a start carries the nonce that is still on file from before, or a start carries
      the mark of a supervised Portal. */
  lemma WindowLaunches(s: Launching, w: nat, ev: Event)
    requires Inv(s) && GivenInv(s) && InWindow(s, w) && Possible(s, ev)
    ensures LaunchesPortal(s, ev) <==> Exception(s, w, ev)
  {
    match ev
    case Launches =>
      SupervisorInWindow(s, w);
      LaunchGrows(s);
    case StartIsTrusted(p) => TrustedLaunches(s, p);
    case StartComparesNonce(p) => StartInWindow(s, w, p);
    case StartRechecksJournal(p) => RecheckInWindow(s, w, p);
    case _ => OtherEventsLaunchNothing(s, ev);
  }

  lemma IssuedGrows(u: System, ev: Upgrade.Event)
    requires Upgrade.Possible(u, ev)
    ensures u.disk.issued <= Upgrade.Apply(u, ev).disk.issued
  {
    if ev.Work? && ev.step.RestartOld? {
      RestartIssues(u.disk, ev.w, u.workers[ev.w], ev.step);
    } else {
      NonceStep(u, ev);
    }
  }

  lemma RestartIssues(d: Disk, w: nat, k: Worker, step: Step)
    requires CanStep(d, w, k, step) && step.RestartOld?
    ensures d.issued <= WorkDisk(d, w, k, step).issued
  {}

  lemma GivenKept(s: Launching, ev: Event)
    requires GivenInv(s) && Possible(s, ev)
    ensures GivenInv(Apply(s, ev))
  {
    if ev.Upgrading? {
      IssuedGrows(s.up, ev.ev);
    }
  }

  lemma {:induction false} RunKeepsGiven(s: Launching, evs: seq<Event>)
    requires GivenInv(s) && RunOf(s, evs)
    ensures GivenInv(After(s, evs))
    decreases |evs|
  {
    if evs != [] {
      GivenKept(s, evs[0]);
      RunKeepsGiven(Apply(s, evs[0]), evs[1..]);
    }
  }

  /** The same over whole runs, for whatever comes next. */
  lemma NoOtherLaunchInWindow(s: Launching, evs: seq<Event>, w: nat, ev: Event)
    requires Initial(s) && RunOf(s, evs) && InWindow(After(s, evs), w) && Possible(After(s, evs), ev)
    ensures var e := After(s, evs);
            LaunchesPortal(e, ev) <==> Exception(e, w, ev)
  {
    InitialSatisfiesInv(s);
    RunKeepsInv(s, evs);
    RunKeepsGiven(s, evs);
    WindowLaunches(After(s, evs), w, ev);
  }

  /** A start-script restart puts the nonce on file into the environment of what it starts. */
  lemma ScriptRestartIssuesNonce(d: Disk, w: nat, k: Worker)
    requires CanStep(d, w, k, Step.Restart(true)) && k.mode.StartScript? && d.nonce.Some?
    ensures var d' := WorkDisk(d, w, k, Step.Restart(true)); d'.nonce == d.nonce && d'.nonce.value in d'.issued
  {}

  /** While that nonce is still on file, whatever carries it passes the guard in the next transaction's window. */
  lemma StaleNoncePasses(s: Launching, w: nat, p: nat)
    requires InWindow(s, w) && s.up.disk.Owns(w) && p !in s.starts
    requires s.up.disk.nonce.Some? && s.up.disk.nonce.value in s.up.disk.issued
    ensures var evs := [StartBegins(p, s.up.disk.nonce, false), StartReadsJournal(p), StartComparesNonce(p)];
            RunOf(s, evs) && InWindow(After(s, evs), w) && After(s, evs).launches == s.launches + [DirectLaunch]
  {
    var s1 := Apply(s, StartBegins(p, s.up.disk.nonce, false));
    var s2 := Apply(s1, StartReadsJournal(p));
    var s3 := Apply(s2, StartComparesNonce(p));
    assert RunOf(s3, []) && After(s3, []) == s3;
    var last := [StartComparesNonce(p)];
    assert last[1..] == [];
    assert RunOf(s2, last) && After(s2, last) == s3;
    var two := [StartReadsJournal(p), StartComparesNonce(p)];
    assert two[1..] == last;
    assert RunOf(s1, two) && After(s1, two) == s3;
    var evs := [StartBegins(p, s.up.disk.nonce, false), StartReadsJournal(p), StartComparesNonce(p)];
    assert evs[1..] == two;
  }
}
