/**
 The life of a sub-agent task: the spawn guard, the permits, the session's busy flag, finalization, and reconciliation
 of the durable ledger after a restart.
 */
module Subagent {
  import opened Basics
  import opened TaskLedger

  /** How far one spawn has come. The steps between two phases run without interleaving; anything may happen between
      phases. */
  datatype Phase =
    | Guarded | Permitted | Opening | Opened
    | Claimed | Registered | Recorded | Working
    | Marked | Freed | Closed | Announced | Delivered | Finished
  {
    predicate Attempting() {
      Guarded? || Permitted? || Opening? || Opened?
    }

    predicate Spawning() {
      Attempting() || Claimed? || Registered? || Recorded?
    }

    predicate HoldsPermit() {
      !Guarded? && !Finished?
    }

    /** The session's busy flag names the task from the claim until finalization clears it. */
    predicate HoldsSession() {
      Unfinished() || Marked?
    }

    predicate Unfinished() {
      Claimed? || Registered? || Recorded? || Working?
    }

    predicate Unrecorded() {
      Attempting() || Claimed? || Registered?
    }

    /** Finalization has read the cancelled flag. */
    predicate Decided() {
      Marked? || Freed? || Settling()
    }

    /** The row has been closed. */
    predicate Settling() {
      Closed? || Announced? || Delivered? || Finished?
    }

    predicate RowOpen() {
      Recorded? || Working? || Marked? || Freed?
    }
  }

  /** One spawn and the task it becomes. `silenced` is the cancelled flag as finalization read it. */
  datatype Task = Task(
    key: string,
    session: nat,
    phase: Phase,
    guard: bool,
    cancelled: bool,
    silenced: bool,
    status: Status,
    callback: Callback)

  /** Session objects are numbered; `busy` holds their busy flags. `rows` is the ledger on disk and `deliveries` the
      callbacks handed over; both outlive a crash, like the supply of task ids. Where the program keeps only the keys in
      flight and a count of permits, `spawning` and `permits` also say whose they are. */
  datatype Manager = Manager(
    maxConcurrent: nat,
    spawning: map<string, nat>,
    permits: set<nat>,
    sessions: map<string, nat>,
    busy: seq<Option<nat>>,
    tasks: map<nat, Task>,
    nextId: nat,
    reconciled: bool,
    queue: seq<nat>,
    announced: bool,
    rows: seq<Row>,
    deliveries: seq<nat>)
  {
    function Capacity(): nat {
      if maxConcurrent == 0 then 1 else maxConcurrent
    }

    predicate In(t: nat, phase: Phase) {
      t in tasks && tasks[t].phase == phase
    }

    predicate Undelivered(t: nat) {
      t in tasks && !tasks[t].phase.Delivered? && !tasks[t].phase.Finished?
    }

    function At(t: nat, phase: Phase): Manager
      requires t in tasks
    {
      this.(tasks := tasks[t := tasks[t].(phase := phase)])
    }

    // -------------------------------------------------------------- spawning

    /** A key with a spawn in flight is refused. */
    function Begin(key: string): Manager {
      if key in spawning then this
      else
        this.(spawning := spawning[key := nextId], nextId := nextId + 1,
              tasks := tasks[nextId := Task(key, 0, Guarded, true, false, false, Running, Pending)])
    }

    /** A failed spawn gives back its guard and its permit. */
    function Abandon(t: nat): Manager
      requires t in tasks
    {
      this.(tasks := tasks - {t}, permits := permits - {t},
            spawning := if tasks[t].guard then spawning - {tasks[t].key} else spawning)
    }

    function Acquire(t: nat): Manager
      requires In(t, Guarded)
    {
      if |permits| >= Capacity() then Abandon(t) else At(t, Permitted).(permits := permits + {t})
    }

    /** The session of the key, or a new one that nobody else can see yet. */
    function LookUp(t: nat): Manager
      requires In(t, Permitted)
    {
      var task := tasks[t];
      if task.key in sessions then this.(tasks := tasks[t := task.(session := sessions[task.key], phase := Opened)])
      else this.(busy := busy + [None], tasks := tasks[t := task.(session := |busy|, phase := Opening)])
    }

    function Publish(t: nat): Manager
      requires In(t, Opening)
    {
      At(t, Opened).(sessions := sessions[tasks[t].key := tasks[t].session])
    }

    /** `live` says whether the pi session is still loaded. */
    function Claim(t: nat, live: bool): Manager
      requires In(t, Opened) && tasks[t].session < |busy|
    {
      if busy[tasks[t].session].Some? || !live then Abandon(t)
      else At(t, Claimed).(busy := busy[tasks[t].session := Some(t)])
    }

    function Register(t: nat): Manager
      requires In(t, Claimed)
    {
      At(t, Registered)
    }

    function Record(t: nat): Manager
      requires In(t, Registered)
    {
      At(t, Recorded).(rows := rows + [NewRow(t, tasks[t].key)])
    }

    function Launch(t: nat): Manager
      requires In(t, Recorded)
    {
      At(t, Working)
    }

    /** The spawn call returns and drops its guard; the task may be anywhere by then. */
    function Return(t: nat): Manager
      requires t in tasks
    {
      this.(tasks := tasks[t := tasks[t].(guard := false)], spawning := spawning - {tasks[t].key})
    }

    function Cancel(t: nat): Manager
      requires t in tasks
    {
      this.(tasks := tasks[t := tasks[t].(cancelled := true)])
    }

    // -------------------------------------------------------------- finalization

    function Mark(t: nat, status: Status): Manager
      requires In(t, Working)
    {
      var task := tasks[t];
      this.(tasks := tasks[t := task.(phase := Marked, silenced := task.cancelled,
                                      status := if task.cancelled then Cancelled else status,
                                      callback := if task.cancelled then Suppressed else Pending)])
    }

    function Free(t: nat): Manager
      requires In(t, Marked) && tasks[t].session < |busy|
    {
      var o := tasks[t].session;
      At(t, Freed).(busy := if busy[o] == Some(t) then busy[o := None] else busy)
    }

    function CloseRow(t: nat, turns: nat, tokens: nat, error: Option<string>): Manager
      requires In(t, Freed)
    {
      var finished := FinishedRows(rows, t, tasks[t].status, turns, tokens, error);
      At(t, Closed).(rows := Pruned(if tasks[t].silenced then WithCallback(finished, t, Suppressed) else finished))
    }

    function Conclude(t: nat, configured: bool): Manager
      requires In(t, Closed)
    {
      if tasks[t].silenced || !configured then Release(t)
      else
        this.(rows := WithCallback(rows, t, Sent), tasks := tasks[t := tasks[t].(phase := Announced, callback := Sent)])
    }

    function Deliver(t: nat): Manager
      requires In(t, Announced)
    {
      At(t, Delivered).(deliveries := deliveries + [t])
    }

    function Release(t: nat): Manager
      requires t in tasks
    {
      At(t, Finished).(permits := permits - {t})
    }

    function Forget(t: nat): Manager
      requires In(t, Finished)
    {
      this.(tasks := tasks - {t})
    }

    // -------------------------------------------------------------- restart

    /** Every open row is closed and saved before the first of them is reported. */
    function Reconcile(configured: bool): Manager {
      if reconciled then this
      else if OpenRows(rows) == [] then this.(reconciled := true)
      else
        var error := RESTARTED;
        this.(reconciled := true, rows := Pruned(AllInterrupted(rows, error)),
              queue := if configured then IdsInOrder(Interruptions(rows, error)) else [])
    }

    function AnnounceInterrupted(): Manager
      requires queue != []
    {
      this.(announced := true, rows := WithCallback(rows, queue[0], Sent))
    }

    function DeliverInterrupted(): Manager
      requires queue != []
    {
      this.(announced := false, deliveries := deliveries + [queue[0]], queue := queue[1..])
    }

    function ReportNext(): Manager {
      if queue == [] then this else AnnounceInterrupted().DeliverInterrupted()
    }

    function Prune(): Manager {
      this.(rows := Pruned(rows))
    }

    /** Memory is lost, the ledger and what was handed over are not. */
    function Crash(): Manager {
      Manager(maxConcurrent, map[], {}, map[], [], map[], nextId, false, [], false, rows, deliveries)
    }
  }

  const RESTARTED: string := "Portal restarted while the task was running"

  datatype Event =
    | Begins(key: string)
    | Acquires(t: nat) | LooksUp(t: nat) | Publishes(t: nat) | Fails(t: nat) | Claims(t: nat, live: bool)
    | Registers(t: nat) | Records(t: nat) | Launches(t: nat) | Returns(t: nat)
    | Cancels(t: nat)
    | Marks(t: nat, status: Status) | Frees(t: nat) | Closes(t: nat, turns: nat, tokens: nat, error: Option<string>)
    | Concludes(t: nat, configured: bool) | Delivers(t: nat) | Finishes(t: nat) | Forgets(t: nat)
    | Reconciles(configured: bool) | AnnouncesInterrupted | DeliversInterrupted
    | Prunes | Crashes

  predicate Possible(s: Manager, ev: Event) {
    match ev
    case Begins(_) => true
    case Acquires(t) => s.In(t, Guarded)
    case LooksUp(t) => s.In(t, Permitted)
    case Publishes(t) => s.In(t, Opening)
    case Fails(t) => t in s.tasks && s.tasks[t].phase.Attempting()
    case Claims(t, _) => s.In(t, Opened) && s.tasks[t].session < |s.busy|
    case Registers(t) => s.In(t, Claimed)
    case Records(t) => s.In(t, Registered)
    case Launches(t) => s.In(t, Recorded)
    case Returns(t) => t in s.tasks && s.tasks[t].guard && !s.tasks[t].phase.Spawning()
    case Cancels(t) => t in s.tasks && !s.tasks[t].phase.Attempting() && !s.tasks[t].phase.Claimed?
    case Marks(t, status) => s.In(t, Working) && !status.IsOpen()
    case Frees(t) => s.In(t, Marked) && s.tasks[t].session < |s.busy|
    case Closes(t, _, _, _) => s.In(t, Freed)
    case Concludes(t, _) => s.In(t, Closed)
    case Delivers(t) => s.In(t, Announced)
    case Finishes(t) => s.In(t, Delivered)
    case Forgets(t) => s.In(t, Finished) && !s.tasks[t].guard
    case Reconciles(_) => true
    case AnnouncesInterrupted => s.queue != [] && !s.announced
    case DeliversInterrupted => s.queue != [] && s.announced
    case Prunes => true
    case Crashes => true
  }

  function Apply(s: Manager, ev: Event): Manager
    requires Possible(s, ev)
  {
    match ev
    case Begins(key) => s.Begin(key)
    case Acquires(t) => s.Acquire(t)
    case LooksUp(t) => s.LookUp(t)
    case Publishes(t) => s.Publish(t)
    case Fails(t) => s.Abandon(t)
    case Claims(t, live) => s.Claim(t, live)
    case Registers(t) => s.Register(t)
    case Records(t) => s.Record(t)
    case Launches(t) => s.Launch(t)
    case Returns(t) => s.Return(t)
    case Cancels(t) => s.Cancel(t)
    case Marks(t, status) => s.Mark(t, status)
    case Frees(t) => s.Free(t)
    case Closes(t, turns, tokens, error) => s.CloseRow(t, turns, tokens, error)
    case Concludes(t, configured) => s.Conclude(t, configured)
    case Delivers(t) => s.Deliver(t)
    case Finishes(t) => s.Release(t)
    case Forgets(t) => s.Forget(t)
    case Reconciles(configured) => s.Reconcile(configured)
    case AnnouncesInterrupted => s.AnnounceInterrupted()
    case DeliversInterrupted => s.DeliverInterrupted()
    case Prunes => s.Prune()
    case Crashes => s.Crash()
  }

  /** The order the program relies on: reconciliation precedes the first spawn of a run. */
  predicate Enabled(s: Manager, ev: Event) {
    Possible(s, ev) && (ev.Begins? ==> s.reconciled)
  }

  // ---------------------------------------------------------------- invariants

  ghost predicate PermitsInv(s: Manager) {
    && |s.permits| <= s.Capacity()
    && (forall t :: t in s.permits ==> t in s.tasks)
    && (forall t :: t in s.tasks ==> (t in s.permits <==> s.tasks[t].phase.HoldsPermit()))
  }

  /** The guard names one attempt per key, and every attempt in flight has it. */
  ghost predicate GuardInv(s: Manager) {
    && (forall t :: t in s.tasks ==> t < s.nextId)
    && (forall t ::
        t in s.tasks && s.tasks[t].guard ==> s.tasks[t].key in s.spawning && s.spawning[s.tasks[t].key] == t)
    && (forall t :: t in s.tasks && s.tasks[t].phase.Spawning() ==> s.tasks[t].guard)
    && (forall k ::
        k in s.spawning ==> s.spawning[k] in s.tasks && s.tasks[s.spawning[k]].guard && s.tasks[s.spawning[k]].key == k)
  }

  /** A session object that only its creator sees. */
  ghost predicate Private(s: Manager, t: nat)
    requires t in s.tasks
  {
    var o := s.tasks[t].session;
    && o < |s.busy| && s.busy[o] == None && s.tasks[t].key !in s.sessions
    && (forall k :: k in s.sessions ==> s.sessions[k] != o)
    && (forall u :: u in s.tasks && u != t && s.tasks[u].phase.Opening? ==> s.tasks[u].session != o)
  }

  ghost predicate Public(s: Manager, t: nat)
    requires t in s.tasks
  {
    s.tasks[t].key in s.sessions && s.sessions[s.tasks[t].key] == s.tasks[t].session
  }

  ghost predicate SessionsInv(s: Manager) {
    && (forall k :: k in s.sessions ==> s.sessions[k] < |s.busy|)
    && (forall k, l :: k in s.sessions && l in s.sessions && k != l ==> s.sessions[k] != s.sessions[l])
    && (forall t :: t in s.tasks && s.tasks[t].phase.Opening? ==> Private(s, t))
    && (forall t ::
        t in s.tasks && !s.tasks[t].phase.Guarded? && !s.tasks[t].phase.Permitted? && !s.tasks[t].phase.Opening? ==>
          Public(s, t))
  }

  ghost predicate BusyInv(s: Manager) {
    && (forall t :: t in s.tasks && s.tasks[t].phase.HoldsSession() ==>
          s.tasks[t].session < |s.busy| && s.busy[s.tasks[t].session] == Some(t))
    && (forall o :: 0 <= o < |s.busy| && s.busy[o].Some? ==>
          var t := s.busy[o].value; t in s.tasks && s.tasks[t].phase.HoldsSession() && s.tasks[t].session == o)
  }

  ghost predicate LiveInv(s: Manager) {
    PermitsInv(s) && GuardInv(s) && SessionsInv(s) && BusyInv(s)
  }

  // ---------------------------------------------------------------- preservation: permits, guards, sessions

  /** The steps that touch neither permits, guards nor sessions. */
  ghost predicate Advances(s: Manager, s': Manager, t: nat) {
    && t in s.tasks && t in s'.tasks && s'.tasks == s.tasks[t := s'.tasks[t]]
    && s'.maxConcurrent == s.maxConcurrent && s'.spawning == s.spawning && s'.permits == s.permits
    && s'.sessions == s.sessions && s'.busy == s.busy && s'.nextId == s.nextId
    && var a, b := s.tasks[t], s'.tasks[t];
    && b.key == a.key && b.session == a.session && b.guard == a.guard
    && !a.phase.Attempting() && !b.phase.Attempting()
    && b.phase.HoldsPermit() == a.phase.HoldsPermit() && b.phase.HoldsSession() == a.phase.HoldsSession()
    && (b.phase.Spawning() ==> a.phase.Spawning())
  }

  lemma BeginKeepsPermits(s: Manager, key: string)
    requires PermitsInv(s) && GuardInv(s)
    ensures PermitsInv(s.Begin(key))
  {}

  lemma BeginKeepsGuards(s: Manager, key: string)
    requires GuardInv(s)
    ensures GuardInv(s.Begin(key))
  {}

  lemma BeginKeepsSessions(s: Manager, key: string)
    requires GuardInv(s) && SessionsInv(s)
    ensures SessionsInv(s.Begin(key))
  {}

  lemma BeginKeepsBusy(s: Manager, key: string)
    requires GuardInv(s) && BusyInv(s)
    ensures BusyInv(s.Begin(key))
  {}

  lemma AbandonKeepsGuards(s: Manager, t: nat)
    requires PermitsInv(s) && GuardInv(s) && t in s.tasks && s.tasks[t].phase.Attempting()
    ensures PermitsInv(s.Abandon(t)) && GuardInv(s.Abandon(t))
  {}

  lemma AbandonKeepsSessions(s: Manager, t: nat)
    requires SessionsInv(s) && BusyInv(s) && t in s.tasks && s.tasks[t].phase.Attempting()
    ensures SessionsInv(s.Abandon(t)) && BusyInv(s.Abandon(t))
  {}

  lemma AcquireKeepsGuards(s: Manager, t: nat)
    requires PermitsInv(s) && GuardInv(s) && s.In(t, Guarded) && |s.permits| < s.Capacity()
    ensures PermitsInv(s.Acquire(t)) && GuardInv(s.Acquire(t))
  {}

  lemma AcquireKeepsSessions(s: Manager, t: nat)
    requires SessionsInv(s) && s.In(t, Guarded) && |s.permits| < s.Capacity()
    ensures SessionsInv(s.Acquire(t))
  {}

  lemma AcquireKeepsBusy(s: Manager, t: nat)
    requires BusyInv(s) && s.In(t, Guarded) && |s.permits| < s.Capacity()
    ensures BusyInv(s.Acquire(t))
  {}

  lemma LookUpKeepsPermits(s: Manager, t: nat)
    requires PermitsInv(s) && s.In(t, Permitted)
    ensures PermitsInv(s.LookUp(t))
  {}

  lemma LookUpKeepsGuards(s: Manager, t: nat)
    requires GuardInv(s) && s.In(t, Permitted)
    ensures GuardInv(s.LookUp(t))
  {}

  lemma LookUpKeepsSessions(s: Manager, t: nat)
    requires SessionsInv(s) && s.In(t, Permitted)
    ensures SessionsInv(s.LookUp(t))
  {
    if s.tasks[t].key !in s.sessions {
      NewSessionIsPrivate(s, t);
    }
  }

  lemma NewSessionIsPrivate(s: Manager, t: nat)
    requires SessionsInv(s) && s.In(t, Permitted) && s.tasks[t].key !in s.sessions
    ensures SessionsInv(s.LookUp(t))
  {}

  lemma LookUpKeepsBusy(s: Manager, t: nat)
    requires BusyInv(s) && s.In(t, Permitted)
    ensures BusyInv(s.LookUp(t))
  {
    if s.tasks[t].key !in s.sessions {
      NewSessionIsIdle(s, t);
    }
  }

  lemma NewSessionIsIdle(s: Manager, t: nat)
    requires BusyInv(s) && s.In(t, Permitted) && s.tasks[t].key !in s.sessions
    ensures BusyInv(s.LookUp(t))
  {}

  lemma PublishKeepsGuards(s: Manager, t: nat)
    requires PermitsInv(s) && GuardInv(s) && s.In(t, Opening)
    ensures PermitsInv(s.Publish(t)) && GuardInv(s.Publish(t))
  {}

  lemma PublishKeepsSessions(s: Manager, t: nat)
    requires GuardInv(s) && SessionsInv(s) && s.In(t, Opening)
    ensures SessionsInv(s.Publish(t))
  {}

  lemma PublishKeepsBusy(s: Manager, t: nat)
    requires BusyInv(s) && s.In(t, Opening)
    ensures BusyInv(s.Publish(t))
  {}

  lemma ClaimKeepsGuards(s: Manager, t: nat)
    requires PermitsInv(s) && GuardInv(s) && Possible(s, Claims(t, true)) && s.busy[s.tasks[t].session].None?
    ensures PermitsInv(s.Claim(t, true)) && GuardInv(s.Claim(t, true))
  {}

  lemma ClaimKeepsSessions(s: Manager, t: nat)
    requires SessionsInv(s) && BusyInv(s) && Possible(s, Claims(t, true)) && s.busy[s.tasks[t].session].None?
    ensures SessionsInv(s.Claim(t, true))
  {}

  lemma ClaimKeepsBusy(s: Manager, t: nat)
    requires BusyInv(s) && Possible(s, Claims(t, true)) && s.busy[s.tasks[t].session].None?
    ensures BusyInv(s.Claim(t, true))
  {}

  lemma ReturnKeepsGuards(s: Manager, t: nat)
    requires PermitsInv(s) && GuardInv(s) && Possible(s, Returns(t))
    ensures PermitsInv(s.Return(t)) && GuardInv(s.Return(t))
  {}

  lemma ReturnKeepsSessions(s: Manager, t: nat)
    requires SessionsInv(s) && BusyInv(s) && Possible(s, Returns(t))
    ensures SessionsInv(s.Return(t)) && BusyInv(s.Return(t))
  {}

  lemma FreeKeepsPermits(s: Manager, t: nat)
    requires PermitsInv(s) && Possible(s, Frees(t))
    ensures PermitsInv(s.Free(t))
  {}

  lemma FreeKeepsGuards(s: Manager, t: nat)
    requires GuardInv(s) && Possible(s, Frees(t))
    ensures GuardInv(s.Free(t))
  {}

  lemma FreeKeepsSessions(s: Manager, t: nat)
    requires SessionsInv(s) && BusyInv(s) && Possible(s, Frees(t))
    ensures SessionsInv(s.Free(t))
  {}

  lemma FreeKeepsBusy(s: Manager, t: nat)
    requires BusyInv(s) && Possible(s, Frees(t))
    ensures BusyInv(s.Free(t))
  {}

  lemma ReleaseKeepsGuards(s: Manager, t: nat)
    requires PermitsInv(s) && GuardInv(s) && t in s.tasks && (s.tasks[t].phase.Closed? || s.tasks[t].phase.Delivered?)
    ensures PermitsInv(s.Release(t)) && GuardInv(s.Release(t))
  {}

  lemma ReleaseKeepsSessions(s: Manager, t: nat)
    requires SessionsInv(s) && t in s.tasks && (s.tasks[t].phase.Closed? || s.tasks[t].phase.Delivered?)
    ensures SessionsInv(s.Release(t))
  {}

  lemma ReleaseKeepsBusy(s: Manager, t: nat)
    requires BusyInv(s) && t in s.tasks && (s.tasks[t].phase.Closed? || s.tasks[t].phase.Delivered?)
    ensures BusyInv(s.Release(t))
  {}

  lemma ForgetKeepsGuards(s: Manager, t: nat)
    requires PermitsInv(s) && GuardInv(s) && Possible(s, Forgets(t))
    ensures PermitsInv(s.Forget(t)) && GuardInv(s.Forget(t))
  {}

  lemma ForgetKeepsSessions(s: Manager, t: nat)
    requires SessionsInv(s) && BusyInv(s) && Possible(s, Forgets(t))
    ensures SessionsInv(s.Forget(t)) && BusyInv(s.Forget(t))
  {}

  lemma AdvanceKeepsGuards(s: Manager, s': Manager, t: nat)
    requires PermitsInv(s) && GuardInv(s) && Advances(s, s', t)
    ensures PermitsInv(s') && GuardInv(s')
  {}

  lemma AdvanceKeepsSessions(s: Manager, s': Manager, t: nat)
    requires SessionsInv(s) && BusyInv(s) && Advances(s, s', t)
    ensures SessionsInv(s') && BusyInv(s')
  {}

  lemma AttemptKeepsLive(s: Manager, ev: Event)
    requires LiveInv(s) && Possible(s, ev)
    requires ev.Begins? || ev.Acquires? || ev.LooksUp? || ev.Publishes? || ev.Fails? || ev.Claims?
    ensures LiveInv(Apply(s, ev))
  {
    match ev
    case Begins(key) =>
      BeginKeepsPermits(s, key);
      BeginKeepsGuards(s, key);
      BeginKeepsSessions(s, key);
      BeginKeepsBusy(s, key);
    case Acquires(t) =>
      if |s.permits| >= s.Capacity() {
        AbandonKeepsGuards(s, t);
        AbandonKeepsSessions(s, t);
      } else {
        AcquireKeepsGuards(s, t);
        AcquireKeepsSessions(s, t);
        AcquireKeepsBusy(s, t);
      }
    case LooksUp(t) =>
      LookUpKeepsPermits(s, t);
      LookUpKeepsGuards(s, t);
      LookUpKeepsSessions(s, t);
      LookUpKeepsBusy(s, t);
    case Publishes(t) =>
      PublishKeepsGuards(s, t);
      PublishKeepsSessions(s, t);
      PublishKeepsBusy(s, t);
    case Fails(t) =>
      AbandonKeepsGuards(s, t);
      AbandonKeepsSessions(s, t);
    case Claims(t, live) =>
      if s.busy[s.tasks[t].session].Some? || !live {
        AbandonKeepsGuards(s, t);
        AbandonKeepsSessions(s, t);
      } else {
        ClaimKeepsGuards(s, t);
        ClaimKeepsSessions(s, t);
        ClaimKeepsBusy(s, t);
      }
    case _ =>
  }

  predicate Moves(ev: Event) {
    ev.Registers? || ev.Records? || ev.Launches? || ev.Cancels? || ev.Marks? || ev.Closes? || ev.Delivers?
  }

  lemma MovesAdvance(s: Manager, ev: Event)
    requires Possible(s, ev) && Moves(ev)
    ensures Advances(s, Apply(s, ev), ev.t)
  {
    if ev.Marks? || ev.Closes? || ev.Delivers? {
      EndingAdvances(s, ev);
    } else {
      StartingAdvances(s, ev);
    }
  }

  lemma StartingAdvances(s: Manager, ev: Event)
    requires Possible(s, ev) && (ev.Registers? || ev.Records? || ev.Launches? || ev.Cancels?)
    ensures Advances(s, Apply(s, ev), ev.t)
  {}

  lemma EndingAdvances(s: Manager, ev: Event)
    requires Possible(s, ev) && (ev.Marks? || ev.Closes? || ev.Delivers?)
    ensures Advances(s, Apply(s, ev), ev.t)
  {
    if ev.Marks? {
      MarkAdvances(s, ev.t, ev.status);
    }
  }

  lemma MarkAdvances(s: Manager, t: nat, status: Status)
    requires s.In(t, Working)
    ensures Advances(s, s.Mark(t, status), t)
  {}

  lemma AnnounceAdvances(s: Manager, t: nat)
    requires s.In(t, Closed) && !s.tasks[t].silenced
    ensures Advances(s, s.Conclude(t, true), t)
  {}

  lemma LeavingKeepsLive(s: Manager, ev: Event)
    requires LiveInv(s) && Possible(s, ev)
    requires ev.Returns? || ev.Frees? || ev.Concludes? || ev.Finishes? || ev.Forgets?
    ensures LiveInv(Apply(s, ev))
  {
    match ev
    case Returns(t) =>
      ReturnKeepsGuards(s, t);
      ReturnKeepsSessions(s, t);
    case Frees(t) =>
      FreeKeepsPermits(s, t);
      FreeKeepsGuards(s, t);
      FreeKeepsSessions(s, t);
      FreeKeepsBusy(s, t);
    case Concludes(t, configured) =>
      if s.tasks[t].silenced || !configured {
        ReleaseKeepsGuards(s, t);
        ReleaseKeepsSessions(s, t);
        ReleaseKeepsBusy(s, t);
      } else {
        AnnounceAdvances(s, t);
        AdvanceKeepsGuards(s, s.Conclude(t, true), t);
        AdvanceKeepsSessions(s, s.Conclude(t, true), t);
      }
    case Finishes(t) =>
      ReleaseKeepsGuards(s, t);
      ReleaseKeepsSessions(s, t);
      ReleaseKeepsBusy(s, t);
    case Forgets(t) =>
      ForgetKeepsGuards(s, t);
      ForgetKeepsSessions(s, t);
    case _ =>
  }

  lemma LiveKept(s: Manager, ev: Event)
    requires LiveInv(s) && Possible(s, ev)
    ensures LiveInv(Apply(s, ev))
  {
    if ev.Begins? || ev.Acquires? || ev.LooksUp? || ev.Publishes? || ev.Fails? || ev.Claims? {
      AttemptKeepsLive(s, ev);
    } else if Moves(ev) {
      MovesAdvance(s, ev);
      AdvanceKeepsGuards(s, Apply(s, ev), ev.t);
      AdvanceKeepsSessions(s, Apply(s, ev), ev.t);
    } else if ev.Returns? || ev.Frees? || ev.Concludes? || ev.Finishes? || ev.Forgets? {
      LeavingKeepsLive(s, ev);
    } else {
      LedgerStepsKeepLive(s, ev);
    }
  }

  /** What LiveInv speaks about. */
  ghost predicate SameLive(s: Manager, s': Manager) {
    && s'.maxConcurrent == s.maxConcurrent && s'.spawning == s.spawning && s'.permits == s.permits
    && s'.sessions == s.sessions && s'.busy == s.busy && s'.tasks == s.tasks && s'.nextId == s.nextId
  }

  lemma SameLiveKeepsGuards(s: Manager, s': Manager)
    requires PermitsInv(s) && GuardInv(s) && SameLive(s, s')
    ensures PermitsInv(s') && GuardInv(s')
  {}

  lemma SameLiveKeepsSessions(s: Manager, s': Manager)
    requires SessionsInv(s) && BusyInv(s) && SameLive(s, s')
    ensures SessionsInv(s') && BusyInv(s')
  {}

  lemma LedgerStepsKeepLive(s: Manager, ev: Event)
    requires LiveInv(s) && Possible(s, ev)
    requires ev.Reconciles? || ev.AnnouncesInterrupted? || ev.DeliversInterrupted? || ev.Prunes? || ev.Crashes?
    ensures LiveInv(Apply(s, ev))
  {
    if ev.Crashes? {
      CrashKeepsLive(s);
    } else {
      LedgerStepsAreSameLive(s, ev);
      SameLiveKeepsGuards(s, Apply(s, ev));
      SameLiveKeepsSessions(s, Apply(s, ev));
    }
  }

  lemma CrashKeepsLive(s: Manager)
    ensures LiveInv(s.Crash())
  {}

  lemma LedgerStepsAreSameLive(s: Manager, ev: Event)
    requires Possible(s, ev) && (ev.Reconciles? || ev.AnnouncesInterrupted? || ev.DeliversInterrupted? || ev.Prunes?)
    ensures SameLive(s, Apply(s, ev))
  {}

  // ---------------------------------------------------------------- invariants of the ledger and the deliveries

  ghost predicate NoRepeats(ids: seq<nat>) {
    forall i, j :: 0 <= i < j < |ids| ==> ids[i] != ids[j]
  }

  /** Once reconciled, an open row belongs to a live task between its recording and its closing. */
  ghost predicate RowsInv(s: Manager) {
    && DistinctIds(s.rows)
    && (forall id: nat :: id in Ids(s.rows) ==> id < s.nextId)
    && (s.reconciled ==> forall id: nat :: id in OpenIds(s.rows) ==> id in s.tasks && s.tasks[id].phase.RowOpen())
    && (forall t ::
        t in s.tasks ==> s.reconciled && t < s.nextId && (s.tasks[t].phase.Unrecorded() ==> t !in Ids(s.rows)))
  }

  ghost predicate DeliveryInv(s: Manager) {
    && NoRepeats(s.deliveries) && NoRepeats(s.queue)
    && (!s.reconciled ==> s.queue == [])
    && (forall id :: id in s.queue ==> id < s.nextId && id !in s.deliveries && id !in s.tasks && id !in OpenIds(s.rows))
    && (forall id :: id in s.deliveries ==> id < s.nextId && id !in OpenIds(s.rows) && !s.Undelivered(id))
  }

  /** What finalization decided for a task it found cancelled. */
  ghost predicate Silent(s: Manager, t: nat)
    requires t in s.tasks
  {
    var task := s.tasks[t];
    && task.cancelled && task.status == Cancelled && task.callback == Suppressed
    && (task.phase.Marked? || task.phase.Freed? || task.phase.Closed? || task.phase.Finished?)
    && (task.phase.Closed? || task.phase.Finished? ==> RowsSay(s.rows, t, Cancelled, Suppressed))
    && t !in s.deliveries
  }

  ghost predicate SilenceInv(s: Manager) {
    && (forall t :: t in s.tasks && s.tasks[t].silenced ==> Silent(s, t))
    && (forall t ::
        t in s.tasks && !s.tasks[t].phase.Decided() ==> !s.tasks[t].silenced && s.tasks[t].status == Running)
    && (forall t :: t in s.tasks && s.tasks[t].phase.Decided() ==> !s.tasks[t].status.IsOpen())
  }

  // ---------------------------------------------------------------- preservation: ledger

  /** The steps of one task that leave ledger, queue and deliveries alone. */
  ghost predicate Quiet(s: Manager, s': Manager, t: nat) {
    && t in s.tasks && t in s'.tasks && s'.tasks == s.tasks[t := s'.tasks[t]]
    && s'.rows == s.rows && s'.queue == s.queue && s'.deliveries == s.deliveries
    && s'.reconciled == s.reconciled && s'.nextId == s.nextId
    && var a, b := s.tasks[t], s'.tasks[t];
    && (b.phase == a.phase || (!a.phase.Settling() && !b.phase.Settling()))
    && (b.phase.Unrecorded() ==> a.phase.Unrecorded()) && (a.phase.RowOpen() ==> b.phase.RowOpen())
    && b.phase.Decided() == a.phase.Decided()
    && b.silenced == a.silenced && b.status == a.status && b.callback == a.callback && (a.cancelled ==> b.cancelled)
  }

  lemma QuietKeepsRows(s: Manager, s': Manager, t: nat)
    requires RowsInv(s) && Quiet(s, s', t)
    ensures RowsInv(s')
  {}

  lemma QuietKeepsDeliveries(s: Manager, s': Manager, t: nat)
    requires DeliveryInv(s) && Quiet(s, s', t)
    ensures DeliveryInv(s')
  {}

  lemma QuietKeepsSilence(s: Manager, s': Manager, t: nat)
    requires SilenceInv(s) && Quiet(s, s', t)
    ensures SilenceInv(s')
  {}

  /** A task leaves the map before it has a row, or after it is done. */
  ghost predicate Drops(s: Manager, s': Manager, t: nat) {
    && t in s.tasks && s'.tasks == s.tasks - {t} && (s.tasks[t].phase.Attempting() || s.tasks[t].phase.Finished?)
    && s'.rows == s.rows && s'.queue == s.queue && s'.deliveries == s.deliveries
    && s'.reconciled == s.reconciled && s'.nextId == s.nextId
  }

  lemma CloseRowMeans(s: Manager, t: nat, turns: nat, tokens: nat, error: Option<string>)
    requires RowsInv(s) && SilenceInv(s) && s.In(t, Freed)
    ensures var r := s.CloseRow(t, turns, tokens, error).rows;
            && DistinctIds(r) && Ids(r) <= Ids(s.rows) && OpenIds(r) == OpenIds(s.rows) - {t}
            && (s.tasks[t].silenced ==> RowsSay(r, t, Cancelled, Suppressed))
            && (forall u: nat, status, callback ::
                u != t && RowsSay(s.rows, u, status, callback) ==> RowsSay(r, u, status, callback))
  {
    var finished := FinishedRows(s.rows, t, s.tasks[t].status, turns, tokens, error);
    FinishClosesOne(s.rows, t, s.tasks[t].status, turns, tokens, error);
    if s.tasks[t].silenced {
      var suppressed := WithCallback(finished, t, Suppressed);
      CallbackKeepsStatus(finished, t, Suppressed);
      assert Silent(s, t);
      assert RowsSay(suppressed, t, Cancelled, Suppressed) by {
        ClosedStatus(finished, t, Cancelled);
      }
      PruneKeepsOpen(suppressed);
    } else {
      PruneKeepsOpen(finished);
    }
  }

  lemma ClosedStatus(rows: seq<Row>, t: nat, status: Status)
    requires DistinctIds(rows) && forall i :: 0 <= i < |rows| && rows[i].id == t ==> rows[i].status == status
    ensures RowsSay(WithCallback(rows, t, Suppressed), t, status, Suppressed)
  {
    var k := Find(rows, t);
    if k < |rows| {
      UpdateKeepsIds(rows, k, rows[k].(callback := Suppressed));
    }
  }

  lemma ReconcileMeans(s: Manager, configured: bool)
    requires RowsInv(s) && !s.reconciled
    ensures var s' := s.Reconcile(configured);
            && DistinctIds(s'.rows) && Ids(s'.rows) <= Ids(s.rows) && OpenIds(s'.rows) == {}
            && s'.tasks == s.tasks && s'.nextId == s.nextId && s'.deliveries == s.deliveries
            && (s.queue == [] ==> NoRepeats(s'.queue) && forall id :: id in s'.queue ==> id in OpenIds(s.rows))
  {
    var open := Interruptions(s.rows, RESTARTED);
    InterruptClosesAll(s.rows, RESTARTED);
    PruneKeepsOpen(AllInterrupted(s.rows, RESTARTED));
    InterruptionsAreTheOpenRows(s.rows, RESTARTED);
    NoOpenRows(s.rows);
    forall id | id in IdsInOrder(open) ensures id in OpenIds(s.rows) {
      var i :| 0 <= i < |open| && open[i].id == id;
      assert id in Ids(open);
    }
  }

  lemma {:induction false} NoOpenRows(rows: seq<Row>)
    ensures OpenRows(rows) == [] <==> OpenIds(rows) == {}
  {
    if rows != [] {
      assert rows == [rows[0]] + rows[1..];
      IdsOfCons(rows[0], rows[1..]);
      NoOpenRows(rows[1..]);
    }
  }

  lemma BeginKeepsRows(s: Manager, key: string)
    requires RowsInv(s) && s.reconciled && key !in s.spawning
    ensures RowsInv(s.Begin(key))
  {}

  lemma BeginKeepsDeliveries(s: Manager, key: string)
    requires RowsInv(s) && DeliveryInv(s) && s.reconciled && key !in s.spawning
    ensures DeliveryInv(s.Begin(key))
  {}

  lemma BeginKeepsSilence(s: Manager, key: string)
    requires RowsInv(s) && DeliveryInv(s) && SilenceInv(s) && s.reconciled && key !in s.spawning
    ensures SilenceInv(s.Begin(key))
  {}

  lemma DropKeepsRows(s: Manager, s': Manager, t: nat)
    requires RowsInv(s) && Drops(s, s', t)
    ensures RowsInv(s')
  {}

  lemma DropKeepsDeliveries(s: Manager, s': Manager, t: nat)
    requires RowsInv(s) && DeliveryInv(s) && Drops(s, s', t)
    ensures DeliveryInv(s')
  {}

  lemma DropKeepsSilence(s: Manager, s': Manager, t: nat)
    requires SilenceInv(s) && Drops(s, s', t)
    ensures SilenceInv(s')
  {}

  lemma MarkKeepsRows(s: Manager, t: nat, status: Status)
    requires RowsInv(s) && s.In(t, Working) && !status.IsOpen()
    ensures RowsInv(s.Mark(t, status))
  {}

  lemma MarkKeepsDeliveries(s: Manager, t: nat, status: Status)
    requires RowsInv(s) && DeliveryInv(s) && s.In(t, Working) && !status.IsOpen()
    ensures DeliveryInv(s.Mark(t, status))
  {}

  lemma MarkKeepsSilence(s: Manager, t: nat, status: Status)
    requires DeliveryInv(s) && SilenceInv(s) && s.In(t, Working) && !status.IsOpen()
    ensures SilenceInv(s.Mark(t, status))
  {}

  lemma RecordKeepsRows(s: Manager, t: nat)
    requires RowsInv(s) && s.In(t, Registered)
    ensures RowsInv(s.Record(t))
  {
    StartOpensOne(s.rows, t, s.tasks[t].key);
  }

  lemma RecordKeepsDeliveries(s: Manager, t: nat)
    requires RowsInv(s) && DeliveryInv(s) && s.In(t, Registered)
    ensures DeliveryInv(s.Record(t))
  {
    StartOpensOne(s.rows, t, s.tasks[t].key);
  }

  lemma RecordKeepsSilence(s: Manager, t: nat)
    requires RowsInv(s) && SilenceInv(s) && s.In(t, Registered)
    ensures SilenceInv(s.Record(t))
  {
    StartOpensOne(s.rows, t, s.tasks[t].key);
  }

  lemma CloseKeepsRows(s: Manager, t: nat, turns: nat, tokens: nat, error: Option<string>)
    requires RowsInv(s) && SilenceInv(s) && s.In(t, Freed)
    ensures RowsInv(s.CloseRow(t, turns, tokens, error))
  {
    CloseRowMeans(s, t, turns, tokens, error);
  }

  lemma CloseKeepsDeliveries(s: Manager, t: nat, turns: nat, tokens: nat, error: Option<string>)
    requires RowsInv(s) && SilenceInv(s) && DeliveryInv(s) && s.In(t, Freed)
    ensures DeliveryInv(s.CloseRow(t, turns, tokens, error))
  {
    CloseRowMeans(s, t, turns, tokens, error);
  }

  lemma CloseKeepsSilence(s: Manager, t: nat, turns: nat, tokens: nat, error: Option<string>)
    requires RowsInv(s) && SilenceInv(s) && s.In(t, Freed)
    ensures SilenceInv(s.CloseRow(t, turns, tokens, error))
  {
    CloseRowMeans(s, t, turns, tokens, error);
  }

  lemma AnnounceKeepsRows(s: Manager, t: nat)
    requires RowsInv(s) && s.In(t, Closed) && !s.tasks[t].silenced
    ensures RowsInv(s.Conclude(t, true))
  {
    CallbackKeepsStatus(s.rows, t, Sent);
  }

  lemma AnnounceKeepsDeliveries(s: Manager, t: nat)
    requires RowsInv(s) && DeliveryInv(s) && s.In(t, Closed) && !s.tasks[t].silenced
    ensures DeliveryInv(s.Conclude(t, true))
  {
    CallbackKeepsStatus(s.rows, t, Sent);
  }

  lemma AnnounceKeepsSilence(s: Manager, t: nat)
    requires RowsInv(s) && SilenceInv(s) && s.In(t, Closed) && !s.tasks[t].silenced
    ensures SilenceInv(s.Conclude(t, true))
  {
    CallbackKeepsStatus(s.rows, t, Sent);
  }

  lemma DeliverKeepsRows(s: Manager, t: nat)
    requires RowsInv(s) && s.In(t, Announced)
    ensures RowsInv(s.Deliver(t))
  {}

  lemma DeliverKeepsDeliveries(s: Manager, t: nat)
    requires RowsInv(s) && DeliveryInv(s) && s.In(t, Announced)
    ensures DeliveryInv(s.Deliver(t))
  {}

  lemma DeliverKeepsSilence(s: Manager, t: nat)
    requires SilenceInv(s) && s.In(t, Announced)
    ensures SilenceInv(s.Deliver(t))
  {}

  lemma ReleaseKeepsRows(s: Manager, t: nat)
    requires RowsInv(s) && (s.In(t, Delivered) || s.In(t, Closed))
    ensures RowsInv(s.Release(t))
  {}

  lemma ReleaseKeepsDeliveries(s: Manager, t: nat)
    requires RowsInv(s) && DeliveryInv(s) && (s.In(t, Delivered) || s.In(t, Closed))
    ensures DeliveryInv(s.Release(t))
  {}

  lemma ReleaseKeepsSilence(s: Manager, t: nat)
    requires SilenceInv(s) && (s.In(t, Delivered) || s.In(t, Closed))
    ensures SilenceInv(s.Release(t))
  {}

  lemma ReconcileKeepsRows(s: Manager, configured: bool)
    requires RowsInv(s) && !s.reconciled
    ensures RowsInv(s.Reconcile(configured))
  {
    ReconcileMeans(s, configured);
  }

  lemma ReconcileKeepsDeliveries(s: Manager, configured: bool)
    requires RowsInv(s) && DeliveryInv(s) && !s.reconciled
    ensures DeliveryInv(s.Reconcile(configured))
  {
    ReconcileMeans(s, configured);
    OpenIdsAreIds(s.rows);
  }

  lemma ReconcileKeepsSilence(s: Manager, configured: bool)
    requires RowsInv(s) && SilenceInv(s) && !s.reconciled
    ensures SilenceInv(s.Reconcile(configured))
  {
    ReconcileMeans(s, configured);
  }

  lemma AnnounceInterruptedKeepsRows(s: Manager)
    requires RowsInv(s) && s.queue != []
    ensures RowsInv(s.AnnounceInterrupted())
  {
    CallbackKeepsStatus(s.rows, s.queue[0], Sent);
  }

  lemma AnnounceInterruptedKeepsDeliveries(s: Manager)
    requires RowsInv(s) && DeliveryInv(s) && s.queue != []
    ensures DeliveryInv(s.AnnounceInterrupted())
  {
    CallbackKeepsStatus(s.rows, s.queue[0], Sent);
  }

  lemma AnnounceInterruptedKeepsSilence(s: Manager)
    requires RowsInv(s) && DeliveryInv(s) && SilenceInv(s) && s.queue != []
    ensures SilenceInv(s.AnnounceInterrupted())
  {
    CallbackKeepsStatus(s.rows, s.queue[0], Sent);
  }

  lemma DeliverInterruptedKeepsRows(s: Manager)
    requires RowsInv(s) && s.queue != []
    ensures RowsInv(s.DeliverInterrupted())
  {}

  lemma DeliverInterruptedKeepsDeliveries(s: Manager)
    requires RowsInv(s) && DeliveryInv(s) && s.queue != []
    ensures DeliveryInv(s.DeliverInterrupted())
  {
    assert s.queue[0] in s.queue;
    assert forall id :: id in s.queue[1..] ==> id in s.queue && id != s.queue[0];
  }

  lemma DeliverInterruptedKeepsSilence(s: Manager)
    requires DeliveryInv(s) && SilenceInv(s) && s.queue != []
    ensures SilenceInv(s.DeliverInterrupted())
  {
    assert s.queue[0] in s.queue;
  }

  lemma PruneKeepsRows(s: Manager)
    requires RowsInv(s)
    ensures RowsInv(s.Prune())
  {
    PruneKeepsOpen(s.rows);
  }

  lemma PruneKeepsDeliveries(s: Manager)
    requires RowsInv(s) && DeliveryInv(s)
    ensures DeliveryInv(s.Prune())
  {
    PruneKeepsOpen(s.rows);
  }

  lemma PruneKeepsSilence(s: Manager)
    requires RowsInv(s) && SilenceInv(s)
    ensures SilenceInv(s.Prune())
  {
    PruneKeepsOpen(s.rows);
  }

  lemma CrashKeepsRows(s: Manager)
    requires RowsInv(s)
    ensures RowsInv(s.Crash())
  {}

  lemma CrashKeepsDeliveries(s: Manager)
    requires RowsInv(s) && DeliveryInv(s)
    ensures DeliveryInv(s.Crash())
  {}

  lemma CrashKeepsSilence(s: Manager)
    requires SilenceInv(s)
    ensures SilenceInv(s.Crash())
  {}

  ghost predicate BookInv(s: Manager) {
    RowsInv(s) && DeliveryInv(s) && SilenceInv(s)
  }

  ghost predicate Inv(s: Manager) {
    LiveInv(s) && BookInv(s)
  }

  predicate MovesQuietly(s: Manager, ev: Event)
    requires Possible(s, ev)
  {
    || ev.LooksUp? || ev.Publishes? || ev.Registers? || ev.Launches? || ev.Returns? || ev.Cancels? || ev.Frees?
    || (ev.Acquires? && |s.permits| < s.Capacity())
    || (ev.Claims? && ev.live && s.busy[s.tasks[ev.t].session].None?)
  }

  lemma AttemptsAreQuiet(s: Manager, ev: Event)
    requires Possible(s, ev) && MovesQuietly(s, ev) && (ev.LooksUp? || ev.Publishes? || ev.Acquires? || ev.Claims?)
    ensures Quiet(s, Apply(s, ev), ev.t)
  {
    if ev.LooksUp? {
      LookUpIsQuiet(s, ev.t);
    }
  }

  lemma LookUpIsQuiet(s: Manager, t: nat)
    requires s.In(t, Permitted)
    ensures Quiet(s, s.LookUp(t), t)
  {}

  lemma OthersAreQuiet(s: Manager, ev: Event)
    requires Possible(s, ev) && (ev.Registers? || ev.Launches? || ev.Returns? || ev.Cancels? || ev.Frees?)
    ensures Quiet(s, Apply(s, ev), ev.t)
  {}

  lemma QuietStep(s: Manager, ev: Event)
    requires Possible(s, ev) && MovesQuietly(s, ev)
    ensures Quiet(s, Apply(s, ev), ev.t)
  {
    if ev.LooksUp? || ev.Publishes? || ev.Acquires? || ev.Claims? {
      AttemptsAreQuiet(s, ev);
    } else {
      OthersAreQuiet(s, ev);
    }
  }

  lemma QuietStepKeepsBook(s: Manager, ev: Event)
    requires BookInv(s) && Possible(s, ev) && MovesQuietly(s, ev)
    ensures BookInv(Apply(s, ev))
  {
    QuietStep(s, ev);
    QuietKeepsRows(s, Apply(s, ev), ev.t);
    QuietKeepsDeliveries(s, Apply(s, ev), ev.t);
    QuietKeepsSilence(s, Apply(s, ev), ev.t);
  }

  lemma AttemptKeepsBook(s: Manager, ev: Event)
    requires BookInv(s) && Enabled(s, ev) && !MovesQuietly(s, ev)
    requires ev.Begins? || ev.Fails? || ev.Acquires? || ev.Claims? || ev.Records? || ev.Forgets?
    ensures BookInv(Apply(s, ev))
  {
    match ev
    case Begins(key) =>
      if key !in s.spawning {
        BeginKeepsRows(s, key);
        BeginKeepsDeliveries(s, key);
        BeginKeepsSilence(s, key);
      }
    case Records(t) =>
      RecordKeepsRows(s, t);
      RecordKeepsDeliveries(s, t);
      RecordKeepsSilence(s, t);
    case Forgets(t) =>
      DropKeepsRows(s, s.Forget(t), t);
      DropKeepsDeliveries(s, s.Forget(t), t);
      DropKeepsSilence(s, s.Forget(t), t);
    case Fails(t) =>
      DropKeepsRows(s, s.Abandon(t), t);
      DropKeepsDeliveries(s, s.Abandon(t), t);
      DropKeepsSilence(s, s.Abandon(t), t);
    case Acquires(t) =>
      DropKeepsRows(s, s.Abandon(t), t);
      DropKeepsDeliveries(s, s.Abandon(t), t);
      DropKeepsSilence(s, s.Abandon(t), t);
    case Claims(t, _) =>
      DropKeepsRows(s, s.Abandon(t), t);
      DropKeepsDeliveries(s, s.Abandon(t), t);
      DropKeepsSilence(s, s.Abandon(t), t);
    case _ =>
  }

  lemma EndKeepsBook(s: Manager, ev: Event)
    requires BookInv(s) && Enabled(s, ev)
    requires ev.Marks? || ev.Closes? || ev.Concludes? || ev.Delivers? || ev.Finishes?
    ensures BookInv(Apply(s, ev))
  {
    match ev
    case Marks(t, status) =>
      MarkKeepsRows(s, t, status);
      MarkKeepsDeliveries(s, t, status);
      MarkKeepsSilence(s, t, status);
    case Closes(t, turns, tokens, error) =>
      CloseKeepsRows(s, t, turns, tokens, error);
      CloseKeepsDeliveries(s, t, turns, tokens, error);
      CloseKeepsSilence(s, t, turns, tokens, error);
    case Concludes(t, configured) =>
      if s.tasks[t].silenced || !configured {
        ReleaseKeepsRows(s, t);
        ReleaseKeepsDeliveries(s, t);
        ReleaseKeepsSilence(s, t);
      } else {
        AnnounceKeepsRows(s, t);
        AnnounceKeepsDeliveries(s, t);
        AnnounceKeepsSilence(s, t);
      }
    case Delivers(t) =>
      DeliverKeepsRows(s, t);
      DeliverKeepsDeliveries(s, t);
      DeliverKeepsSilence(s, t);
    case Finishes(t) =>
      ReleaseKeepsRows(s, t);
      ReleaseKeepsDeliveries(s, t);
      ReleaseKeepsSilence(s, t);
    case _ =>
  }

  lemma RestartKeepsBook(s: Manager, ev: Event)
    requires BookInv(s) && Enabled(s, ev)
    requires ev.Reconciles? || ev.AnnouncesInterrupted? || ev.DeliversInterrupted? || ev.Prunes? || ev.Crashes?
    ensures BookInv(Apply(s, ev))
  {
    match ev
    case Reconciles(configured) => ReconcileKeepsBook(s, configured);
    case AnnouncesInterrupted => ReportKeepsBook(s, ev);
    case DeliversInterrupted => ReportKeepsBook(s, ev);
    case Prunes =>
      PruneKeepsRows(s);
      PruneKeepsDeliveries(s);
      PruneKeepsSilence(s);
    case Crashes =>
      CrashKeepsRows(s);
      CrashKeepsDeliveries(s);
      CrashKeepsSilence(s);
    case _ =>
  }

  lemma ReportKeepsBook(s: Manager, ev: Event)
    requires BookInv(s) && Possible(s, ev) && (ev.AnnouncesInterrupted? || ev.DeliversInterrupted?)
    ensures BookInv(Apply(s, ev))
  {
    if ev.AnnouncesInterrupted? {
      AnnounceInterruptedKeepsRows(s);
      AnnounceInterruptedKeepsDeliveries(s);
      AnnounceInterruptedKeepsSilence(s);
    } else {
      DeliverInterruptedKeepsRows(s);
      DeliverInterruptedKeepsDeliveries(s);
      DeliverInterruptedKeepsSilence(s);
    }
  }

  lemma ReconcileKeepsBook(s: Manager, configured: bool)
    requires BookInv(s)
    ensures BookInv(s.Reconcile(configured))
  {
    if !s.reconciled {
      ReconcileKeepsRows(s, configured);
      ReconcileKeepsDeliveries(s, configured);
      ReconcileKeepsSilence(s, configured);
    }
  }

  lemma BookKept(s: Manager, ev: Event)
    requires BookInv(s) && Enabled(s, ev)
    ensures BookInv(Apply(s, ev))
  {
    if MovesQuietly(s, ev) {
      QuietStepKeepsBook(s, ev);
    } else if ev.Begins? || ev.Fails? || ev.Acquires? || ev.Claims? || ev.Records? || ev.Forgets? {
      AttemptKeepsBook(s, ev);
    } else if ev.Marks? || ev.Closes? || ev.Concludes? || ev.Delivers? || ev.Finishes? {
      EndKeepsBook(s, ev);
    } else {
      RestartKeepsBook(s, ev);
    }
  }

  lemma EventKeepsInv(s: Manager, ev: Event)
    requires Inv(s) && Enabled(s, ev)
    ensures Inv(Apply(s, ev))
  {
    LiveKept(s, ev);
    BookKept(s, ev);
  }

  // ---------------------------------------------------------------- runs

  ghost predicate RunOf(s: Manager, evs: seq<Event>)
    decreases |evs|
  {
    evs == [] || (Enabled(s, evs[0]) && RunOf(Apply(s, evs[0]), evs[1..]))
  }

  /** Any possible steps, in whatever order. */
  ghost predicate UnorderedRunOf(s: Manager, evs: seq<Event>)
    decreases |evs|
  {
    evs == [] || (Possible(s, evs[0]) && UnorderedRunOf(Apply(s, evs[0]), evs[1..]))
  }

  ghost function After(s: Manager, evs: seq<Event>): Manager
    requires UnorderedRunOf(s, evs)
    decreases |evs|
  {
    if evs == [] then s else After(Apply(s, evs[0]), evs[1..])
  }

  lemma {:induction false} RunsArePossible(s: Manager, evs: seq<Event>)
    requires RunOf(s, evs)
    ensures UnorderedRunOf(s, evs)
    decreases |evs|
  {
    if evs != [] {
      RunsArePossible(Apply(s, evs[0]), evs[1..]);
    }
  }

  /** A Portal that starts on some ledger, with nothing handed over yet. */
  ghost predicate Initial(s: Manager) {
    && s == s.Crash() && s.deliveries == []
    && DistinctIds(s.rows) && forall id: nat :: id in Ids(s.rows) ==> id < s.nextId
  }

  lemma InitialSatisfiesInv(s: Manager)
    requires Initial(s)
    ensures Inv(s)
  {
    CrashKeepsLive(s);
  }

  lemma {:induction false} RunKeepsInv(s: Manager, evs: seq<Event>)
    requires Inv(s) && RunOf(s, evs)
    ensures UnorderedRunOf(s, evs) && Inv(After(s, evs))
    decreases |evs|
  {
    if evs != [] {
      EventKeepsInv(s, evs[0]);
      RunKeepsInv(Apply(s, evs[0]), evs[1..]);
    }
  }

  ghost predicate IsRun(s0: Manager, evs: seq<Event>, s: Manager) {
    Initial(s0) && RunOf(s0, evs) && UnorderedRunOf(s0, evs) && After(s0, evs) == s
  }

  /** Some run leads here. */
  ghost predicate Reachable(s: Manager) {
    exists s0, evs :: IsRun(s0, evs, s)
  }

  lemma InitialIsReachable(s: Manager)
    requires Initial(s)
    ensures Reachable(s)
  {
    assert IsRun(s, [], s);
  }

  lemma {:induction false} RunExtends(s: Manager, evs: seq<Event>, ev: Event)
    requires RunOf(s, evs) && UnorderedRunOf(s, evs) && Enabled(After(s, evs), ev)
    ensures RunOf(s, evs + [ev]) && UnorderedRunOf(s, evs + [ev]) && After(s, evs + [ev]) == Apply(After(s, evs), ev)
    decreases |evs|
  {
    if evs == [] {
      assert [] + [ev] == [ev];
      var next := Apply(s, ev);
      assert RunOf(next, []) && UnorderedRunOf(next, []) && After(next, []) == next;
    } else {
      assert (evs + [ev])[1..] == evs[1..] + [ev];
      RunExtends(Apply(s, evs[0]), evs[1..], ev);
    }
  }

  lemma StepIsReachable(s: Manager, ev: Event)
    requires Reachable(s) && Enabled(s, ev)
    ensures Reachable(Apply(s, ev))
  {
    var s0, evs :| IsRun(s0, evs, s);
    RunExtends(s0, evs, ev);
    assert IsRun(s0, evs + [ev], Apply(s, ev));
  }

  lemma ReachableSatisfiesInv(s: Manager)
    requires Reachable(s)
    ensures Inv(s)
  {
    var s0, evs :| IsRun(s0, evs, s);
    InitialSatisfiesInv(s0);
    RunKeepsInv(s0, evs);
  }

  function UnfinishedTasks(s: Manager): set<nat> {
    set t | t in s.tasks && s.tasks[t].phase.Unfinished()
  }

  /** Over any crashes and restarts no task is handed to the callback twice. */
  lemma EachTaskIsDeliveredAtMostOnce(s: Manager, evs: seq<Event>)
    requires Initial(s) && RunOf(s, evs)
    ensures UnorderedRunOf(s, evs) && NoRepeats(After(s, evs).deliveries)
  {
    InitialSatisfiesInv(s);
    RunKeepsInv(s, evs);
  }

  lemma OneUnfinishedPerSession(s: Manager)
    requires SessionsInv(s) && BusyInv(s)
    ensures forall t :: t in UnfinishedTasks(s) ==> Public(s, t) && s.busy[s.sessions[s.tasks[t].key]] == Some(t)
    ensures forall t, u ::
              t in UnfinishedTasks(s) && u in UnfinishedTasks(s) && s.tasks[t].key == s.tasks[u].key ==> t == u
  {}

  lemma UnfinishedHavePermits(s: Manager)
    requires PermitsInv(s)
    ensures |UnfinishedTasks(s)| <= s.Capacity()
  {
    SubsetSize(UnfinishedTasks(s), s.permits);
  }

  /** In every reachable state a session key has at most one unfinished task, which is the one its busy flag names, and
      no more tasks are unfinished than the configured limit allows. */
  lemma SessionsAreExclusive(s: Manager, evs: seq<Event>)
    requires Initial(s) && RunOf(s, evs)
    ensures UnorderedRunOf(s, evs)
    ensures var e := After(s, evs);
            && |UnfinishedTasks(e)| <= e.Capacity()
            && (forall t :: t in UnfinishedTasks(e) ==>
                  && e.tasks[t].key in e.sessions && e.sessions[e.tasks[t].key] < |e.busy|
                  && e.busy[e.sessions[e.tasks[t].key]] == Some(t))
            && (forall t, u ::
                t in UnfinishedTasks(e) && u in UnfinishedTasks(e) && e.tasks[t].key == e.tasks[u].key ==> t == u)
  {
    InitialSatisfiesInv(s);
    RunKeepsInv(s, evs);
    OneUnfinishedPerSession(After(s, evs));
    UnfinishedHavePermits(After(s, evs));
  }

  // ---------------------------------------------------------------- cancelled and closed tasks

  /** Cancelled before finalization read the flag, or already found cancelled by it. */
  ghost predicate Muted(s: Manager, t: nat) {
    && t < s.nextId && s.reconciled && t !in s.deliveries && t !in s.queue
    && (t in s.tasks ==> s.tasks[t].silenced || (s.tasks[t].cancelled && !s.tasks[t].phase.Decided()))
  }

  lemma MutedKeptAtEnd(s: Manager, ev: Event, t: nat)
    requires RowsInv(s) && SilenceInv(s) && Muted(s, t) && Possible(s, ev)
    requires ev.Marks? || ev.Closes? || ev.Concludes? || ev.Delivers? || ev.Finishes?
    ensures Muted(Apply(s, ev), t)
  {
    if ev.Marks? || ev.Closes? {
      MutedKeptAtClose(s, ev, t);
    } else {
      assert t in s.tasks && s.tasks[t].silenced ==> Silent(s, t);
    }
  }

  lemma MutedKeptAtClose(s: Manager, ev: Event, t: nat)
    requires Muted(s, t) && Possible(s, ev) && (ev.Marks? || ev.Closes?)
    requires t in s.tasks && s.tasks[t].silenced ==> Silent(s, t)
    ensures Muted(Apply(s, ev), t)
  {}

  lemma MutedKeptAtRestart(s: Manager, ev: Event, t: nat)
    requires Muted(s, t) && Possible(s, ev)
    requires ev.Reconciles? || ev.AnnouncesInterrupted? || ev.DeliversInterrupted? || ev.Prunes?
    ensures Muted(Apply(s, ev), t)
  {
    assert ev.DeliversInterrupted? ==> s.queue[0] in s.queue && forall id :: id in s.queue[1..] ==> id in s.queue;
  }

  lemma MutedKeptAtStart(s: Manager, ev: Event, t: nat)
    requires Muted(s, t) && Possible(s, ev) && !MovesQuietly(s, ev)
    requires ev.Begins? || ev.Fails? || ev.Acquires? || ev.Claims? || ev.Records? || ev.Forgets?
    ensures Muted(Apply(s, ev), t)
  {}

  lemma MutedKept(s: Manager, ev: Event, t: nat)
    requires RowsInv(s) && SilenceInv(s) && Muted(s, t) && Possible(s, ev) && !ev.Crashes?
    ensures Muted(Apply(s, ev), t)
  {
    if MovesQuietly(s, ev) {
      QuietStep(s, ev);
      MutedKeptQuietly(s, Apply(s, ev), ev.t, t);
    } else if ev.Marks? || ev.Closes? || ev.Concludes? || ev.Delivers? || ev.Finishes? {
      MutedKeptAtEnd(s, ev, t);
    } else if ev.Reconciles? || ev.AnnouncesInterrupted? || ev.DeliversInterrupted? || ev.Prunes? {
      MutedKeptAtRestart(s, ev, t);
    } else {
      MutedKeptAtStart(s, ev, t);
    }
  }

  lemma MutedKeptQuietly(s: Manager, s': Manager, u: nat, t: nat)
    requires Muted(s, t) && Quiet(s, s', u)
    ensures Muted(s', t)
  {}

  /** Within a run, a task cancelled before finalization looks is never delivered, and ends cancelled and suppressed. */
  lemma {:induction false} CancelledStaysSilent(s: Manager, evs: seq<Event>, t: nat)
    requires Inv(s) && Muted(s, t) && RunOf(s, evs) && Crashes !in evs
    ensures UnorderedRunOf(s, evs)
    ensures var e := After(s, evs);
            && t !in e.deliveries
            && (t in e.tasks && e.tasks[t].phase.Decided() ==>
                e.tasks[t].status == Cancelled && e.tasks[t].callback == Suppressed)
            && (t in e.tasks && e.tasks[t].phase.Settling() ==> RowsSay(e.rows, t, Cancelled, Suppressed))
    decreases |evs|
  {
    if evs == [] {
      assert t in s.tasks && s.tasks[t].silenced ==> Silent(s, t);
    } else {
      assert evs[0] in evs;
      EventKeepsInv(s, evs[0]);
      MutedKept(s, evs[0], t);
      CancelledStaysSilent(Apply(s, evs[0]), evs[1..], t);
    }
  }

  /** The row is closed and nothing is about to be handed over. */
  ghost predicate Settled(s: Manager, t: nat) {
    && t < s.nextId && t !in OpenIds(s.rows) && t !in s.queue
    && (t in s.tasks ==> IsDone(s.tasks[t]))
  }

  lemma OpenRowsOnlyShrink(s: Manager, ev: Event)
    requires RowsInv(s) && SilenceInv(s) && Possible(s, ev)
    ensures OpenIds(Apply(s, ev).rows) <= OpenIds(s.rows) + if ev.Records? then {ev.t} else {}
  {
    if TouchesRows(ev) {
      RowStepsOnlyClose(s, ev);
    } else {
      OthersKeepRows(s, ev);
    }
  }

  predicate TouchesRows(ev: Event) {
    ev.Records? || ev.Closes? || ev.Concludes? || ev.Reconciles? || ev.AnnouncesInterrupted? || ev.Prunes?
  }

  lemma RowStepsOnlyClose(s: Manager, ev: Event)
    requires RowsInv(s) && SilenceInv(s) && Possible(s, ev) && TouchesRows(ev)
    ensures OpenIds(Apply(s, ev).rows) <= OpenIds(s.rows) + if ev.Records? then {ev.t} else {}
  {
    match ev
    case Records(t) => StartOpensOne(s.rows, t, s.tasks[t].key);
    case Closes(t, turns, tokens, error) => CloseRowMeans(s, t, turns, tokens, error);
    case Concludes(t, configured) => ConcludeOpensNothing(s, t, configured);
    case Reconciles(configured) => ReconcileOpensNothing(s, configured);
    case AnnouncesInterrupted => ReportOpensNothing(s);
    case Prunes => PruneKeepsOpen(s.rows);
    case _ =>
  }

  lemma ConcludeOpensNothing(s: Manager, t: nat, configured: bool)
    requires DistinctIds(s.rows) && s.In(t, Closed)
    ensures OpenIds(s.Conclude(t, configured).rows) == OpenIds(s.rows)
  {
    CallbackKeepsStatus(s.rows, t, Sent);
  }

  lemma ReconcileOpensNothing(s: Manager, configured: bool)
    requires RowsInv(s)
    ensures OpenIds(s.Reconcile(configured).rows) <= OpenIds(s.rows)
  {
    if !s.reconciled {
      ReconcileMeans(s, configured);
    }
  }

  lemma ReportOpensNothing(s: Manager)
    requires DistinctIds(s.rows) && s.queue != []
    ensures OpenIds(s.AnnounceInterrupted().rows) == OpenIds(s.rows)
  {
    CallbackKeepsStatus(s.rows, s.queue[0], Sent);
  }

  lemma OthersKeepRows(s: Manager, ev: Event)
    requires Possible(s, ev) && !TouchesRows(ev)
    ensures Apply(s, ev).rows == s.rows
  {}

  /** A step hands over only a task that was announced or queued. */
  lemma DeliveryStep(s: Manager, ev: Event)
    requires Possible(s, ev)
    ensures var s' := Apply(s, ev);
            s'.deliveries == s.deliveries
            || (s.queue != [] && s'.deliveries == s.deliveries + [s.queue[0]])
            || (ev.Delivers? && s.In(ev.t, Announced) && s'.deliveries == s.deliveries + [ev.t])
  {
    if !ev.Delivers? && !ev.DeliversInterrupted? {
      if ev.Begins? || ev.Acquires? || ev.LooksUp? || ev.Publishes? || ev.Fails? || ev.Claims? || ev.Registers?
          || ev.Records? {
        SpawningDeliversNothing(s, ev);
      } else {
        EndingDeliversNothing(s, ev);
      }
    }
  }

  lemma SpawningDeliversNothing(s: Manager, ev: Event)
    requires Possible(s, ev)
    requires ev.Begins? || ev.Acquires? || ev.LooksUp? || ev.Publishes? || ev.Fails? || ev.Claims? || ev.Registers?
             || ev.Records?
    ensures Apply(s, ev).deliveries == s.deliveries
  {}

  lemma EndingDeliversNothing(s: Manager, ev: Event)
    requires Possible(s, ev) && !ev.Delivers? && !ev.DeliversInterrupted?
    requires !(ev.Begins? || ev.Acquires? || ev.LooksUp? || ev.Publishes? || ev.Fails? || ev.Claims? || ev.Registers?
               || ev.Records?)
    ensures Apply(s, ev).deliveries == s.deliveries
  {}

  lemma QueueStep(s: Manager, ev: Event)
    requires RowsInv(s) && DeliveryInv(s) && Possible(s, ev)
    ensures forall id :: id in Apply(s, ev).queue ==> id in s.queue || id in OpenIds(s.rows)
  {
    if ev.Reconciles? && !s.reconciled {
      ReconcileMeans(s, ev.configured);
    }
  }

  predicate IsDone(task: Task) {
    task.phase.Delivered? || task.phase.Finished? || (task.silenced && task.phase.Settling())
  }

  lemma DoneStays(s: Manager, ev: Event, t: nat)
    requires SilenceInv(s) && Possible(s, ev) && t < s.nextId && (t in s.tasks ==> IsDone(s.tasks[t]))
    ensures var s' := Apply(s, ev); t < s'.nextId && (t in s'.tasks ==> IsDone(s'.tasks[t]))
  {
    assert t in s.tasks && s.tasks[t].silenced ==> Silent(s, t);
    if MovesQuietly(s, ev) {
      QuietStep(s, ev);
    } else if ev.Marks? || ev.Closes? || ev.Concludes? || ev.Delivers? || ev.Finishes? {
      DoneStaysAtEnd(s, ev, t);
    } else {
      DoneStaysElsewhere(s, ev, t);
    }
  }

  lemma DoneStaysAtEnd(s: Manager, ev: Event, t: nat)
    requires Possible(s, ev) && t < s.nextId
             && (t in s.tasks ==> IsDone(s.tasks[t]) && (s.tasks[t].silenced ==> Silent(s, t)))
    requires ev.Marks? || ev.Closes? || ev.Concludes? || ev.Delivers? || ev.Finishes?
    ensures var s' := Apply(s, ev); t < s'.nextId && (t in s'.tasks ==> IsDone(s'.tasks[t]))
  {}

  lemma DoneStaysElsewhere(s: Manager, ev: Event, t: nat)
    requires Possible(s, ev) && t < s.nextId && (t in s.tasks ==> IsDone(s.tasks[t])) && !MovesQuietly(s, ev)
    requires !(ev.Marks? || ev.Closes? || ev.Concludes? || ev.Delivers? || ev.Finishes?)
    ensures var s' := Apply(s, ev); t < s'.nextId && (t in s'.tasks ==> IsDone(s'.tasks[t]))
  {}

  /** Once a task's row is closed and its callback handed over or withheld, no later step of this run or of any later
      one hands it over again. */
  lemma {:induction false} SettledIsFinal(s: Manager, evs: seq<Event>, t: nat)
    requires Inv(s) && Settled(s, t) && RunOf(s, evs)
    ensures UnorderedRunOf(s, evs)
    ensures t in After(s, evs).deliveries <==> t in s.deliveries
    decreases |evs|
  {
    if evs != [] {
      var s' := Apply(s, evs[0]);
      EventKeepsInv(s, evs[0]);
      SettledKept(s, evs[0], t);
      SettledIsFinal(s', evs[1..], t);
    }
  }

  lemma SettledKept(s: Manager, ev: Event, t: nat)
    requires RowsInv(s) && DeliveryInv(s) && SilenceInv(s) && Settled(s, t) && Possible(s, ev)
    ensures Settled(Apply(s, ev), t)
    ensures t in Apply(s, ev).deliveries <==> t in s.deliveries
  {
    OpenRowsOnlyShrink(s, ev);
    DeliveryStep(s, ev);
    QueueStep(s, ev);
    DoneStays(s, ev, t);
  }

  lemma DeliveredOrSilencedIsSettled(s: Manager, t: nat)
    requires Inv(s) && (t in s.deliveries || (t in s.tasks && s.tasks[t].silenced && s.tasks[t].phase.Settling()))
    ensures Settled(s, t)
  {
    assert t in s.queue ==> t !in s.deliveries && t !in s.tasks;
  }

  // ---------------------------------------------------------------- where the promises end

  predicate FirstOpenRowIs(rows: seq<Row>, t: nat) {
    var open := Interruptions(rows, RESTARTED);
    open != [] && open[0].id == t
  }

  lemma ReconciledQueue(s: Manager, t: nat)
    requires DistinctIds(s.rows) && !s.reconciled && FirstOpenRowIs(s.rows, t)
    ensures var s' := s.Reconcile(true);
            s'.queue != [] && s'.queue[0] == t && s'.tasks == s.tasks && s'.busy == s.busy
              && s'.deliveries == s.deliveries
  {
    InterruptionsAreTheOpenRows(s.rows, RESTARTED);
    NoOpenRows(s.rows);
    var open := Interruptions(s.rows, RESTARTED);
    assert open[0].id in Ids(open);
  }

  /** Reconciling only after a spawn takes the live task's row for an abandoned one: the task is handed over twice. */
  lemma LateReconciliationDeliversTwice(s: Manager, t: nat, status: Status)
    requires DistinctIds(s.rows) && !s.reconciled && FirstOpenRowIs(s.rows, t)
    requires s.In(t, Working) && !s.tasks[t].cancelled && s.tasks[t].session < |s.busy|
    ensures var reported := s.Reconcile(true).ReportNext();
            var ended := reported.Mark(t, status).Free(t).CloseRow(t, 0, 0, None).Conclude(t, true).Deliver(t);
            ended.deliveries == s.deliveries + [t, t]
  {
    ReconciledQueue(s, t);
    var reported := s.Reconcile(true).ReportNext();
    assert reported.tasks == s.tasks && reported.busy == s.busy && reported.deliveries == s.deliveries + [t];
  }

  /** Some run of the program from here on hands the task over. */
  ghost predicate MayDeliver(s: Manager, t: nat) {
    exists evs :: DeliversIn(s, evs, t)
  }

  ghost predicate DeliversIn(s: Manager, evs: seq<Event>, t: nat) {
    RunOf(s, evs) && UnorderedRunOf(s, evs) && t in After(s, evs).deliveries
  }

  lemma DeliversLater(s: Manager, ev: Event, t: nat)
    requires Enabled(s, ev) && MayDeliver(Apply(s, ev), t)
    ensures MayDeliver(s, t)
  {
    var evs :| DeliversIn(Apply(s, ev), evs, t);
    assert ([ev] + evs)[0] == ev && ([ev] + evs)[1..] == evs;
    assert DeliversIn(s, [ev] + evs, t);
  }

  lemma {:induction false} QueuedIsDelivered(s: Manager, t: nat)
    requires t in s.queue && !s.announced
    ensures MayDeliver(s, t)
    decreases |s.queue|
  {
    var s' := s.AnnounceInterrupted().DeliverInterrupted();
    assert Apply(Apply(s, AnnouncesInterrupted), DeliversInterrupted) == s';
    if s.queue[0] == t {
      assert t in s'.deliveries && DeliversIn(s', [], t);
    } else {
      QueuedIsDelivered(s', t);
    }
    DeliversLater(s.AnnounceInterrupted(), DeliversInterrupted, t);
    DeliversLater(s, AnnouncesInterrupted, t);
  }

  lemma ReconciliationQueuesOpenRows(s: Manager, t: nat)
    requires DistinctIds(s.rows) && !s.reconciled && t in OpenIds(s.rows)
    ensures t in s.Reconcile(true).queue
  {
    InterruptionsAreTheOpenRows(s.rows, RESTARTED);
    NoOpenRows(s.rows);
    var open := Interruptions(s.rows, RESTARTED);
    assert t in Ids(open);
    var i :| 0 <= i < |open| && open[i].id == t;
    assert IdsInOrder(open)[i] == t;
  }

  /** After a crash, a task that was not handed over before can still be handed over if and only if its row is open:
      this is what becomes of a task that was cancelled but whose row was not closed in time. */
  lemma CrashReportsOpenRows(s: Manager, t: nat)
    requires Reachable(s) && t < s.nextId && t !in s.deliveries
    ensures MayDeliver(s.Crash(), t) <==> t in OpenIds(s.rows)
  {
    var crashed := s.Crash();
    StepIsReachable(s, Crashes);
    ReachableSatisfiesInv(crashed);
    if t in OpenIds(s.rows) {
      ReconciliationQueuesOpenRows(crashed, t);
      QueuedIsDelivered(crashed.Reconcile(true), t);
      DeliversLater(crashed, Reconciles(true), t);
    } else if MayDeliver(crashed, t) {
      var evs :| DeliversIn(crashed, evs, t);
      SettledIsFinal(crashed, evs, t);
    }
  }

  // ---------------------------------------------------------------- whole runs of the two

  const FirstStart: Manager := Manager(1, map[], {}, map[], [], map[], 0, false, [], false, [], [])

  /** Some run leads from one state to the other; if `ordered`, one of the program. */
  ghost predicate Leads(s: Manager, s': Manager, ordered: bool) {
    exists evs :: LeadsBy(s, evs, s', ordered)
  }

  ghost predicate LeadsBy(s: Manager, evs: seq<Event>, s': Manager, ordered: bool) {
    UnorderedRunOf(s, evs) && After(s, evs) == s' && (ordered ==> RunOf(s, evs))
  }

  lemma LeadsFrom(s: Manager, ev: Event, s': Manager, ordered: bool)
    requires Possible(s, ev) && (ordered ==> Enabled(s, ev)) && Leads(Apply(s, ev), s', ordered)
    ensures Leads(s, s', ordered)
  {
    var evs :| LeadsBy(Apply(s, ev), evs, s', ordered);
    assert ([ev] + evs)[0] == ev && ([ev] + evs)[1..] == evs;
    assert LeadsBy(s, [ev] + evs, s', ordered);
  }

  /** The attempt of the first task, on the key "k". */
  function Attempt(s: Manager, phase: Phase, busy: seq<Option<nat>>): Manager {
    s.(spawning := map["k" := 0], nextId := 1, permits := if phase.Guarded? then {} else {0}, busy := busy,
       sessions := if phase.Guarded? || phase.Permitted? || phase.Opening? then map[] else map["k" := 0],
       tasks := map[0 := Task("k", 0, phase, true, false, false, Running, Pending)])
  }

  function AtWork(s: Manager): Manager {
    var s' := Attempt(s, Working, [Some(0)]);
    s'.(spawning := map[], tasks := map[0 := s'.tasks[0].(guard := false)], rows := [NewRow(0, "k")])
  }

  /** Two steps at once. */
  lemma LeadsTwice(s: Manager, first: Event, second: Event, s': Manager, ordered: bool)
    requires Possible(s, first) && Possible(Apply(s, first), second) && !second.Begins?
             && (ordered ==> Enabled(s, first))
    requires Leads(Apply(Apply(s, first), second), s', ordered)
    ensures Leads(s, s', ordered)
  {
    LeadsFrom(Apply(s, first), second, s', ordered);
    LeadsFrom(s, first, s', ordered);
  }

  lemma FirstPermit(s: Manager, s': Manager, ordered: bool)
    requires s == FirstStart.(reconciled := s.reconciled) && (ordered ==> s.reconciled)
    requires Leads(Attempt(s, Permitted, []), s', ordered)
    ensures Leads(s, s', ordered)
  {
    assert Apply(s, Begins("k")) == Attempt(s, Guarded, []);
    assert Apply(Attempt(s, Guarded, []), Acquires(0)) == Attempt(s, Permitted, []);
    LeadsTwice(s, Begins("k"), Acquires(0), s', ordered);
  }

  lemma FirstSession(s: Manager, s': Manager, ordered: bool)
    requires s == FirstStart.(reconciled := s.reconciled) && Leads(Attempt(s, Opened, [None]), s', ordered)
    ensures Leads(Attempt(s, Permitted, []), s', ordered)
  {
    assert Apply(Attempt(s, Permitted, []), LooksUp(0)) == Attempt(s, Opening, [None]);
    assert Apply(Attempt(s, Opening, [None]), Publishes(0)) == Attempt(s, Opened, [None]);
    LeadsTwice(Attempt(s, Permitted, []), LooksUp(0), Publishes(0), s', ordered);
  }

  lemma FirstClaim(s: Manager, s': Manager, ordered: bool)
    requires s == FirstStart.(reconciled := s.reconciled) && Leads(Attempt(s, Registered, [Some(0)]), s', ordered)
    ensures Leads(Attempt(s, Opened, [None]), s', ordered)
  {
    assert Apply(Attempt(s, Opened, [None]), Claims(0, true)) == Attempt(s, Claimed, [Some(0)]);
    assert Apply(Attempt(s, Claimed, [Some(0)]), Registers(0)) == Attempt(s, Registered, [Some(0)]);
    LeadsTwice(Attempt(s, Opened, [None]), Claims(0, true), Registers(0), s', ordered);
  }

  lemma FirstRecord(s: Manager, s': Manager, ordered: bool)
    requires s == FirstStart.(reconciled := s.reconciled)
    requires Leads(Attempt(s, Recorded, [Some(0)]).(rows := [NewRow(0, "k")]), s', ordered)
    ensures Leads(Attempt(s, Registered, [Some(0)]), s', ordered)
  {
    assert Apply(Attempt(s, Registered, [Some(0)]), Records(0))
        == Attempt(s, Recorded, [Some(0)]).(rows := [NewRow(0, "k")]);
    LeadsFrom(Attempt(s, Registered, [Some(0)]), Records(0), s', ordered);
  }

  lemma FirstLaunch(s: Manager, s': Manager, ordered: bool)
    requires s == FirstStart.(reconciled := s.reconciled)
    requires Leads(Attempt(s, Working, [Some(0)]).(rows := [NewRow(0, "k")]), s', ordered)
    ensures Leads(Attempt(s, Recorded, [Some(0)]).(rows := [NewRow(0, "k")]), s', ordered)
  {
    var recorded := Attempt(s, Recorded, [Some(0)]).(rows := [NewRow(0, "k")]);
    assert Apply(recorded, Launches(0)) == Attempt(s, Working, [Some(0)]).(rows := [NewRow(0, "k")]);
    LeadsFrom(recorded, Launches(0), s', ordered);
  }

  lemma FirstReturn(s: Manager, s': Manager, ordered: bool)
    requires s == FirstStart.(reconciled := s.reconciled) && Leads(AtWork(s), s', ordered)
    ensures Leads(Attempt(s, Working, [Some(0)]).(rows := [NewRow(0, "k")]), s', ordered)
  {
    var working := Attempt(s, Working, [Some(0)]).(rows := [NewRow(0, "k")]);
    assert Apply(working, Returns(0)) == AtWork(s);
    LeadsFrom(working, Returns(0), s', ordered);
  }

  lemma FirstSpawn(s: Manager, s': Manager, ordered: bool)
    requires s == FirstStart.(reconciled := s.reconciled) && (ordered ==> s.reconciled) && Leads(AtWork(s), s', ordered)
    ensures Leads(s, s', ordered)
  {
    FirstReturn(s, s', ordered);
    FirstLaunch(s, s', ordered);
    FirstRecord(s, s', ordered);
    FirstClaim(s, s', ordered);
    FirstSession(s, s', ordered);
    FirstPermit(s, s', ordered);
  }

  lemma ReportingLeads(s: Manager, t: nat)
    requires s.In(t, Closed) && !s.tasks[t].silenced
    ensures Leads(s, s.Conclude(t, true).Deliver(t), false)
  {
    var s' := s.Conclude(t, true).Deliver(t);
    assert LeadsBy(s', [], s', false);
    LeadsTwice(s, Concludes(t, true), Delivers(t), s', false);
  }

  lemma EndingLeads(s: Manager, t: nat, s': Manager)
    requires s.In(t, Working) && !s.tasks[t].cancelled && s.tasks[t].session < |s.busy|
    requires Leads(s.Mark(t, Done).Free(t).CloseRow(t, 0, 0, None), s', false)
    ensures Leads(s, s', false)
  {
    LeadsFrom(s.Mark(t, Done).Free(t), Closes(t, 0, 0, None), s', false);
    LeadsTwice(s, Marks(t, Done), Frees(t), s', false);
  }

  lemma InterruptionLeads(s: Manager, s': Manager)
    requires !s.reconciled && s.Reconcile(true).queue != [] && !s.announced
             && Leads(s.Reconcile(true).ReportNext(), s', false)
    ensures Leads(s, s', false)
  {
    var reconciled := s.Reconcile(true);
    LeadsTwice(reconciled, AnnouncesInterrupted, DeliversInterrupted, s', false);
    LeadsFrom(s, Reconciles(true), s', false);
  }

  /** The first task is at work when reconciliation comes: its row is taken for an abandoned one. */
  lemma LateReconciliationHappens() returns (s: Manager)
    ensures Initial(FirstStart) && Leads(FirstStart, s, false) && s.deliveries == [0, 0]
  {
    var working := AtWork(FirstStart);
    assert Interruptions(working.rows, RESTARTED) == [working.rows[0].InterruptedBy(RESTARTED)];
    LateReconciliationDeliversTwice(working, 0, Done);
    ReconciledQueue(working, 0);
    var reported := working.Reconcile(true).ReportNext();
    var closed := reported.Mark(0, Done).Free(0).CloseRow(0, 0, 0, None);
    s := closed.Conclude(0, true).Deliver(0);
    ReportingLeads(closed, 0);
    EndingLeads(reported, 0, s);
    InterruptionLeads(working, s);
    FirstSpawn(FirstStart, s, false);
  }

  /** A task is cancelled at work and Portal crashes before its row is closed: the next start may hand it over. */
  lemma CancelledThenCrashedIsReported() returns (s: Manager)
    ensures Initial(FirstStart) && Leads(FirstStart, s, true) && Muted(s, 0) && MayDeliver(s.Crash(), 0)
  {
    s := AtWork(FirstStart.(reconciled := true)).Cancel(0);
    CancelledAtWork(s);
    var evs :| LeadsBy(FirstStart, evs, s, true);
    assert IsRun(FirstStart, evs, s);
    assert s.rows[0].id in OpenIds(s.rows);
    CrashReportsOpenRows(s, 0);
  }

  lemma CancelledAtWork(s: Manager)
    requires s == AtWork(FirstStart.(reconciled := true)).Cancel(0)
    ensures Leads(FirstStart, s, true)
  {
    var start := FirstStart.(reconciled := true);
    assert LeadsBy(s, [], s, true);
    LeadsFrom(AtWork(start), Cancels(0), s, true);
    FirstSpawn(start, s, true);
    LeadsFrom(FirstStart, Reconciles(true), s, true);
  }
}
