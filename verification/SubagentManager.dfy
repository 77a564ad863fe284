/**
 The sub-agent manager as an object: one method for each stretch of its operations that runs without interleaving.
 */
module SubagentManagers {
  import opened Basics
  import opened TaskLedger
  import opened Subagent

  /** All that is left of a reconciliation, done without interruption. */
  function ReportAll(s: Manager): (r: Manager)
    requires !s.announced
    ensures r.queue == [] && r.deliveries == s.deliveries + s.queue && r.tasks == s.tasks
            && r.reconciled == s.reconciled
    decreases |s.queue|
  {
    if s.queue == [] then s
    else
      assert s.queue == [s.queue[0]] + s.queue[1..];
      ReportAll(s.ReportNext())
  }

  lemma {:induction false} ReportsKeepRowsClosed(s: Manager)
    requires !s.announced && DistinctIds(s.rows)
    ensures OpenIds(ReportAll(s).rows) == OpenIds(s.rows)
    decreases |s.queue|
  {
    if s.queue != [] {
      CallbackKeepsStatus(s.rows, s.queue[0], Sent);
      ReportsKeepRowsClosed(s.ReportNext());
    }
  }

  // ---------------------------------------------------------------- what a caller can tell from the state

  /** The tasks that hold a permit. */
  function Holders(s: Manager): set<nat> {
    set t | t in s.tasks && s.tasks[t].phase.HoldsPermit()
  }

  /** A spawn for the key is in flight. */
  ghost predicate InFlight(s: Manager, key: string) {
    exists t :: t in s.tasks && s.tasks[t].guard && s.tasks[t].key == key
  }

  /** A task of the key is unfinished, or has finished and not yet freed the session. */
  ghost predicate Held(s: Manager, key: string) {
    exists t :: t in s.tasks && s.tasks[t].phase.HoldsSession() && s.tasks[t].key == key
  }

  lemma PermitsAreHolders(s: Manager)
    requires Reachable(s)
    ensures s.permits == Holders(s) && |Holders(s)| <= s.Capacity()
  {
    ReachableSatisfiesInv(s);
    assert PermitsInv(s);
  }

  lemma GuardsAreInFlight(s: Manager, key: string)
    requires Reachable(s)
    ensures key in s.spawning <==> InFlight(s, key)
    ensures s.nextId !in s.tasks
    ensures forall t, u ::
              && t in s.tasks && u in s.tasks && s.tasks[t].guard && s.tasks[u].guard
              && s.tasks[t].key == s.tasks[u].key ==>
                t == u
  {
    ReachableSatisfiesInv(s);
    assert GuardInv(s);
  }

  lemma AbandonMeans(s: Manager, t: nat)
    requires Reachable(s) && t in s.tasks && s.tasks[t].phase.Attempting()
    ensures Reachable(s.Abandon(t)) && !InFlight(s.Abandon(t), s.tasks[t].key) && s.tasks[t].guard
  {
    StepIsReachable(s, Fails(t));
    ReachableSatisfiesInv(s);
    assert GuardInv(s);
    GuardsAreInFlight(s.Abandon(t), s.tasks[t].key);
  }

  lemma AcquireMeans(s: Manager, t: nat)
    requires Reachable(s) && s.In(t, Guarded)
    ensures Reachable(s.Acquire(t)) && |s.Acquire(t).permits| <= s.Capacity()
  {
    StepIsReachable(s, Acquires(t));
    PermitsAreHolders(s.Acquire(t));
  }

  lemma GuardHoldsNoPermit(s: Manager, s': Manager, t: nat)
    requires t !in s.tasks && s'.tasks.Keys == s.tasks.Keys + {t} && s'.In(t, Guarded)
    requires forall u :: u in s.tasks ==> s'.tasks[u] == s.tasks[u]
    ensures Holders(s') == Holders(s)
  {}

  lemma HeldByOthers(s: Manager, s': Manager, t: nat)
    requires t in s'.tasks && s'.tasks == s.tasks[t := s'.tasks[t]] && !s'.tasks[t].phase.HoldsSession()
    requires t in s.tasks ==> !s.tasks[t].phase.HoldsSession()
    ensures forall key :: Held(s', key) <==> Held(s, key)
  {
    forall key | Held(s, key) ensures Held(s', key) {
      var u :| u in s.tasks && s.tasks[u].phase.HoldsSession() && s.tasks[u].key == key;
      assert u in s'.tasks && s'.tasks[u] == s.tasks[u];
    }
    forall key | Held(s', key) ensures Held(s, key) {
      var u :| u in s'.tasks && s'.tasks[u].phase.HoldsSession() && s'.tasks[u].key == key;
      assert u in s.tasks && s.tasks[u] == s'.tasks[u];
    }
  }

  function Reserved(s: Manager, key: string): Manager {
    var t := s.nextId;
    s.(spawning := s.spawning[key := t], permits := s.permits + {t}, nextId := t + 1,
       tasks := s.tasks[t := Task(key, 0, Permitted, true, false, false, Running, Pending)])
  }

  lemma ReservationAddsOne(s: Manager, key: string)
    requires key !in s.spawning && s.nextId !in s.tasks && s.nextId !in s.permits
    ensures var s', t := Reserved(s, key), s.nextId;
            && s'.In(t, Permitted) && s'.tasks[t].key == key && (Held(s', key) <==> Held(s, key))
            && s'.spawning - {key} == s.spawning && s'.tasks - {t} == s.tasks && s'.permits - {t} == s.permits
  {
    HeldByOthers(s, Reserved(s, key), s.nextId);
  }

  lemma ReserveMeans(s: Manager, key: string)
    requires Reachable(s) && s.reconciled && key !in s.spawning
    ensures var s', t := s.Begin(key), s.nextId;
            && s'.In(t, Guarded) && t !in s.tasks && t !in s.permits && Holders(s') == s.permits
            && s'.Acquire(t) == if |s.permits| < s.Capacity() then Reserved(s, key) else s.(nextId := t + 1)
  {
    var s', t := s.Begin(key), s.nextId;
    GuardsAreInFlight(s, key);
    PermitsAreHolders(s);
    GuardHoldsNoPermit(s, s', t);
    ReserveValue(s, key);
  }

  lemma ReserveValue(s: Manager, key: string)
    requires key !in s.spawning && s.nextId !in s.tasks && s.nextId !in s.permits
    ensures var s', t := s.Begin(key), s.nextId;
            s'.Acquire(t) == if |s.permits| < s.Capacity() then Reserved(s, key) else s.(nextId := t + 1)
  {
    var s', t := s.Begin(key), s.nextId;
    assert s'.spawning - {key} == s.spawning && s'.tasks - {t} == s.tasks && s'.permits - {t} == s.permits;
    assert s'.tasks[t := s'.tasks[t].(phase := Permitted)] == Reserved(s, key).tasks;
  }

  function WithSession(s: Manager, t: nat): Manager
    requires s.In(t, Permitted)
  {
    var s' := s.LookUp(t);
    if s'.tasks[t].phase.Opening? then s'.Publish(t) else s'
  }

  lemma WithSessionValue(s: Manager, t: nat)
    requires s.In(t, Permitted)
    ensures var s' := WithSession(s, t);
            && s'.In(t, Opened) && s' == s.(tasks := s'.tasks, sessions := s'.sessions, busy := s'.busy)
            && s'.tasks == s.tasks[t := s.tasks[t].(session := s'.tasks[t].session, phase := Opened)]
  {}

  lemma OpenedSession(s: Manager, t: nat)
    requires SessionsInv(s) && BusyInv(s) && s.In(t, Opened)
    ensures Public(s, t) && s.tasks[t].session < |s.busy|
    ensures s.busy[s.tasks[t].session].Some? <==> Held(s, s.tasks[t].key)
  {
    var o := s.tasks[t].session;
    if s.busy[o].Some? {
      var u := s.busy[o].value;
      assert Public(s, u);
    }
  }

  /** The busy flag of a key's session is set exactly while a task of that key holds it. */
  lemma BusyMeansHeld(s: Manager, t: nat)
    requires Reachable(s) && s.In(t, Opened)
    ensures Public(s, t) && s.tasks[t].session < |s.busy|
    ensures s.busy[s.tasks[t].session].Some? <==> Held(s, s.tasks[t].key)
  {
    ReachableSatisfiesInv(s);
    OpenedSession(s, t);
  }

  lemma HolderIsAlone(s: Manager, t: nat)
    requires Reachable(s) && t in s.tasks && s.tasks[t].phase.HoldsSession()
    ensures forall u :: u in s.tasks && s.tasks[u].phase.HoldsSession() && s.tasks[u].key == s.tasks[t].key ==> u == t
  {
    ReachableSatisfiesInv(s);
    assert SessionsInv(s) && BusyInv(s);
  }

  lemma FlagNamesHolder(s: Manager, t: nat)
    requires Reachable(s) && t in s.tasks && s.tasks[t].phase.HoldsSession()
    ensures s.tasks[t].session < |s.busy| && Public(s, t)
    ensures forall o :: 0 <= o < |s.busy| ==> (s.busy[o] == Some(t) <==> o == s.tasks[t].session)
  {
    ReachableSatisfiesInv(s);
    assert SessionsInv(s) && BusyInv(s);
  }

  lemma LookUpMeans(s: Manager, t: nat)
    requires Reachable(s) && s.In(t, Permitted)
    ensures var s' := s.LookUp(t); Reachable(s') && if s'.tasks[t].phase.Opened? then Public(s', t) else Private(s', t)
  {
    StepIsReachable(s, LooksUp(t));
    ReachableSatisfiesInv(s.LookUp(t));
    assert SessionsInv(s.LookUp(t));
  }

  lemma PublishMeans(s: Manager, t: nat)
    requires Reachable(s) && s.In(t, Opening)
    ensures Reachable(s.Publish(t)) && s.tasks[t].key !in s.sessions
    ensures forall k, l ::
              k in s.Publish(t).sessions && l in s.Publish(t).sessions && k != l ==>
                s.Publish(t).sessions[k] != s.Publish(t).sessions[l]
  {
    StepIsReachable(s, Publishes(t));
    ReachableSatisfiesInv(s);
    assert Private(s, t);
    ReachableSatisfiesInv(s.Publish(t));
    assert SessionsInv(s.Publish(t));
  }

  lemma RecordOpensOne(s: Manager, t: nat)
    requires Reachable(s) && s.In(t, Registered)
    ensures Reachable(s.Record(t)) && t !in Ids(s.rows) && OpenIds(s.Record(t).rows) == OpenIds(s.rows) + {t}
  {
    ReachableSatisfiesInv(s);
    NewRowOpensOne(s, t);
    StepIsReachable(s, Records(t));
  }

  lemma NewRowOpensOne(s: Manager, t: nat)
    requires RowsInv(s) && s.In(t, Registered)
    ensures t !in Ids(s.rows) && OpenIds(s.Record(t).rows) == OpenIds(s.rows) + {t}
  {
    StartOpensOne(s.rows, t, s.tasks[t].key);
  }

  function Started(s: Manager, t: nat): Manager
    requires s.In(t, Claimed)
  {
    s.(rows := s.rows + [NewRow(t, s.tasks[t].key)], spawning := s.spawning - {s.tasks[t].key},
       tasks := s.tasks[t := s.tasks[t].(phase := Working, guard := false)])
  }

  lemma StartedValue(s: Manager, t: nat)
    requires s.In(t, Claimed)
    ensures s.Register(t).Record(t).Launch(t).Return(t) == Started(s, t)
  {}

  lemma ClaimedHasGuard(s: Manager, t: nat)
    requires Reachable(s) && s.In(t, Claimed)
    ensures s.tasks[t].guard
  {
    ReachableSatisfiesInv(s);
    assert GuardInv(s);
  }

  /** The row of `t`, if it is still kept, has ended like this; every other row was there before, and pruning is
      done. */
  ghost predicate RowEnded(rows: seq<Row>, before: seq<Row>, t: nat, status: Status, turns: nat, tokens: nat,
          error: Option<string>) {
    && (forall row :: row in rows && row.id == t ==>
          row.status == status && row.turns == turns && row.tokens == tokens && row.error == error)
    && (forall row :: row in rows && row.id != t ==> row in before)
    && |FinishedFrom(rows, 0)| <= 200
  }

  lemma PrunedRows(rows: seq<Row>)
    ensures forall row :: row in Pruned(rows) ==> row in rows
    ensures |FinishedFrom(Pruned(rows), 0)| <= 200
  {
    NewestMembers(rows, MAX_FINISHED_TASKS);
    NewestCounts(rows, MAX_FINISHED_TASKS);
    CountMeans(Pruned(rows), 0);
    assert Pruned(rows)[0..] == Pruned(rows);
  }

  lemma FinishedRow(rows: seq<Row>, t: nat, status: Status, turns: nat, tokens: nat, error: Option<string>)
    requires DistinctIds(rows)
    ensures forall row :: row in FinishedRows(rows, t, status, turns, tokens, error) ==>
              if row.id == t then
                row.status == status && row.turns == turns && row.tokens == tokens && row.error == error
              else row in rows
  {
    var k := Find(rows, t);
    forall i | 0 <= i < |rows| && i != k ensures rows[i].id != t {
      assert k < |rows| ==> rows[k].id == t;
    }
  }

  lemma CallbackRow(rows: seq<Row>, t: nat, callback: Callback)
    requires DistinctIds(rows)
    ensures forall row :: row in WithCallback(rows, t, callback) ==>
              if row.id == t
                  then row.callback == callback && exists was :: was in rows && row == was.(callback := callback)
              else row in rows
  {
    var k := Find(rows, t);
    forall i | 0 <= i < |rows| && i != k ensures rows[i].id != t {
      assert k < |rows| ==> rows[k].id == t;
    }
    if k < |rows| {
      assert rows[k] in rows;
    }
  }

  lemma ClosedRowEnded(s: Manager, t: nat, turns: nat, tokens: nat, error: Option<string>)
    requires DistinctIds(s.rows) && s.In(t, Freed) && !s.tasks[t].status.IsOpen()
    ensures RowEnded(s.CloseRow(t, turns, tokens, error).rows, s.rows, t, s.tasks[t].status, turns, tokens, error)
  {
    var finished := FinishedRows(s.rows, t, s.tasks[t].status, turns, tokens, error);
    FinishedRow(s.rows, t, s.tasks[t].status, turns, tokens, error);
    FinishClosesOne(s.rows, t, s.tasks[t].status, turns, tokens, error);
    if s.tasks[t].silenced {
      CallbackRow(finished, t, Suppressed);
      PrunedRows(WithCallback(finished, t, Suppressed));
    } else {
      PrunedRows(finished);
    }
  }

  lemma CallbackKeepsEnded(rows: seq<Row>, before: seq<Row>, t: nat, status: Status, turns: nat, tokens: nat,
          error: Option<string>, callback: Callback)
    requires DistinctIds(rows) && RowEnded(rows, before, t, status, turns, tokens, error)
    ensures RowEnded(WithCallback(rows, t, callback), before, t, status, turns, tokens, error)
    ensures forall row :: row in WithCallback(rows, t, callback) && row.id == t ==> row.callback == callback
  {
    CallbackRow(rows, t, callback);
    var k := Find(rows, t);
    assert FinishedFrom(WithCallback(rows, t, callback), 0) == FinishedFrom(rows, 0);
  }

  lemma RowsAreDistinct(s: Manager)
    requires Reachable(s)
    ensures DistinctIds(s.rows)
    ensures forall t :: t in s.tasks && s.tasks[t].phase.Decided() ==> !s.tasks[t].status.IsOpen()
    ensures NoRepeats(s.deliveries)
  {
    ReachableSatisfiesInv(s);
    assert RowsInv(s) && SilenceInv(s) && DeliveryInv(s);
  }

  lemma CancelMutes(s: Manager, t: nat)
    requires Reachable(s) && Possible(s, Cancels(t))
    ensures Reachable(s.Cancel(t)) && (!s.tasks[t].phase.Decided() ==> Muted(s.Cancel(t), t))
  {
    StepIsReachable(s, Cancels(t));
    ReachableSatisfiesInv(s);
    assert t in s.deliveries ==> !s.Undelivered(t);
  }

  lemma MarkMeans(s: Manager, t: nat, status: Status)
    requires Reachable(s) && Possible(s, Marks(t, status))
    ensures Reachable(s.Mark(t, status)) && t !in s.deliveries
    ensures s.tasks[t].cancelled ==> Silent(s.Mark(t, status), t)
  {
    StepIsReachable(s, Marks(t, status));
    ReachableSatisfiesInv(s);
    assert t in s.deliveries ==> !s.Undelivered(t);
  }

  lemma FreeMeans(s: Manager, t: nat)
    requires Reachable(s) && s.In(t, Marked)
    ensures Possible(s, Frees(t)) && Reachable(s.Free(t)) && s.busy[s.tasks[t].session] == Some(t)
    ensures !Held(s.Free(t), s.tasks[t].key)
  {
    FlagNamesHolder(s, t);
    HolderIsAlone(s, t);
    StepIsReachable(s, Frees(t));
  }

  lemma CloseMeans(s: Manager, t: nat, turns: nat, tokens: nat, error: Option<string>)
    requires Reachable(s) && s.In(t, Freed)
    ensures var s' := s.CloseRow(t, turns, tokens, error);
            && Reachable(s') && OpenIds(s'.rows) == OpenIds(s.rows) - {t}
            && (s.tasks[t].silenced ==> Settled(s', t) && RowsSay(s'.rows, t, Cancelled, Suppressed))
  {
    var s' := s.CloseRow(t, turns, tokens, error);
    ReachableSatisfiesInv(s);
    CloseRowMeans(s, t, turns, tokens, error);
    StepIsReachable(s, Closes(t, turns, tokens, error));
    if s.tasks[t].silenced {
      ReachableSatisfiesInv(s');
      DeliveredOrSilencedIsSettled(s', t);
    }
  }

  lemma ConcludeMeans(s: Manager, t: nat, configured: bool)
    requires Reachable(s) && s.In(t, Closed)
    ensures var s' := s.Conclude(t, configured);
            && Reachable(s') && OpenIds(s'.rows) == OpenIds(s.rows) && t !in s.deliveries
            && if s.tasks[t].silenced || !configured then Settled(s', t)
               else forall row :: row in s'.rows && row.id == t ==> row.callback == Sent
  {
    ReachableSatisfiesInv(s);
    StepIsReachable(s, Concludes(t, configured));
    ConcludeOpensNothing(s, t, configured);
    assert t in s.deliveries ==> !s.Undelivered(t);
    if s.tasks[t].silenced || !configured {
      assert t in s.queue ==> t !in s.tasks;
      assert t in OpenIds(s.rows) ==> s.tasks[t].phase.RowOpen();
    } else {
      CallbackKeepsStatus(s.rows, t, Sent);
    }
  }

  lemma DeliverMeans(s: Manager, t: nat)
    requires Reachable(s) && s.In(t, Announced)
    ensures var s' := s.Deliver(t); Reachable(s') && t !in s.deliveries && NoRepeats(s'.deliveries) && Settled(s', t)
  {
    ReachableSatisfiesInv(s);
    StepIsReachable(s, Delivers(t));
    ReachableSatisfiesInv(s.Deliver(t));
    DeliveredOrSilencedIsSettled(s.Deliver(t), t);
    assert t in s.deliveries ==> !s.Undelivered(t);
  }

  class SubagentManager {
    const maxConcurrent: nat
    const ledger: Ledger
    var spawning: map<string, nat>
    var running: set<nat>
    var sessions: map<string, nat>
    var busy: seq<Option<nat>>
    var tasks: map<nat, Task>
    var nextId: nat
    var reconciled: bool
    var queue: seq<nat>
    var announced: bool
    var deliveries: seq<nat>

    ghost function State(): Manager
      reads this, ledger
    {
      Manager(maxConcurrent, spawning, running, sessions, busy, tasks, nextId, reconciled, queue, announced,
              ledger.tasks, deliveries)
    }

    ghost predicate Valid()
      reads this, ledger
    {
      Reachable(State())
    }

    constructor (maxConcurrent: nat, ledger: Ledger, nextId: nat)
      requires DistinctIds(ledger.tasks) && forall id: nat :: id in Ids(ledger.tasks) ==> id < nextId
      ensures Valid() && Initial(State())
      ensures this.maxConcurrent == maxConcurrent && this.ledger == ledger && ledger.tasks == old(ledger.tasks)
              && this.nextId == nextId
    {
      this.maxConcurrent, this.ledger, this.nextId := maxConcurrent, ledger, nextId;
      spawning, running, sessions, busy, tasks := map[], {}, map[], [], map[];
      reconciled, queue, announced, deliveries := false, [], false, [];
      new;
      InitialIsReachable(State());
    }

    /** Refused exactly while a spawn for the key is in flight; otherwise this is the only one. */
    method BeginSpawn(key: string) returns (attempt: Option<nat>)
      requires Valid() && reconciled
      modifies this
      ensures Valid() && State() == old(State()).Begin(key)
      ensures attempt.None? <==> old(InFlight(State(), key))
      ensures attempt.None? ==> State() == old(State())
      ensures attempt.Some? ==> attempt.value !in old(tasks) && State().In(attempt.value, Guarded)
      ensures attempt.Some? ==> forall t :: t in tasks && tasks[t].guard && tasks[t].key == key ==> t == attempt.value
    {
      GuardsAreInFlight(State(), key);
      StepIsReachable(State(), Begins(key));
      if key in spawning {
        return None;
      }
      attempt := Some(nextId);
      spawning := spawning[key := nextId];
      tasks := tasks[nextId := Task(key, 0, Guarded, true, false, false, Running, Pending)];
      nextId := nextId + 1;
    }

    /** A failed spawn leaves nothing behind. */
    method Abandon(t: nat)
      requires Valid() && t in tasks && tasks[t].phase.Attempting()
      modifies this
      ensures Valid() && State() == old(State()).Abandon(t)
      ensures tasks == old(tasks) - {t} && running == old(running) - {t}
              && spawning == old(spawning) - {old(tasks[t].key)}
      ensures !InFlight(State(), old(tasks[t].key))
    {
      AbandonMeans(State(), t);
      if tasks[t].guard {
        spawning := spawning - {tasks[t].key};
      }
      running := running - {t};
      tasks := tasks - {t};
    }

    method Grant(t: nat)
      requires Valid() && State().In(t, Guarded) && |running| < State().Capacity()
      modifies this
      ensures Valid() && State() == old(State()).Acquire(t) && |running| <= State().Capacity()
      ensures State()
              == old(State()).(permits := old(running) + {t},
                tasks := old(tasks)[t := old(tasks[t]).(phase := Permitted)])
    {
      AcquireMeans(State(), t);
      running := running + {t};
      tasks := tasks[t := tasks[t].(phase := Permitted)];
    }

    /** A permit while fewer tasks than the limit hold one, which is at least one; otherwise the attempt is over. */
    method TryAcquire(t: nat) returns (ok: bool)
      requires Valid() && State().In(t, Guarded)
      modifies this
      ensures Valid() && State() == old(State()).Acquire(t)
      ensures ok <==> |old(Holders(State()))| < old(State()).Capacity()
      ensures |running| <= State().Capacity()
      ensures ok ==> t in running
      ensures !ok ==> !InFlight(State(), old(tasks[t].key))
    {
      PermitsAreHolders(State());
      var capacity := if maxConcurrent == 0 then 1 else maxConcurrent;
      ok := |running| < capacity;
      if ok {
        Grant(t);
      } else {
        Abandon(t);
      }
    }

    /** Either the key's own session, or a new one that is idle and that nobody else can reach. */
    method LookUpSession(t: nat)
      requires Valid() && State().In(t, Permitted)
      modifies this
      ensures Valid() && State() == old(State()).LookUp(t)
      ensures tasks[t].phase == if old(tasks[t].key in sessions) then Opened else Opening
      ensures if tasks[t].phase.Opened? then Public(State(), t) else Private(State(), t)
    {
      LookUpMeans(State(), t);
      var task := tasks[t];
      if task.key in sessions {
        tasks := tasks[t := task.(session := sessions[task.key], phase := Opened)];
        return;
      }
      tasks := tasks[t := task.(session := |busy|, phase := Opening)];
      busy := busy + [None];
    }

    /** No session that was published before is replaced, and no two keys share one. */
    method PublishSession(t: nat)
      requires Valid() && State().In(t, Opening)
      modifies this
      ensures Valid() && State() == old(State()).Publish(t)
      ensures Public(State(), t)
      ensures forall k :: k in old(sessions) ==> k in sessions && sessions[k] == old(sessions[k])
      ensures forall k, l :: k in sessions && l in sessions && k != l ==> sessions[k] != sessions[l]
    {
      PublishMeans(State(), t);
      sessions := sessions[tasks[t].key := tasks[t].session];
      tasks := tasks[t := tasks[t].(phase := Opened)];
    }

    /** Checking the busy flag and setting it are one step: claimed exactly when no task of the key holds the session,
        and then by this task alone. */
    method ClaimSession(t: nat, live: bool) returns (ok: bool)
      requires Valid() && State().In(t, Opened)
      modifies this
      ensures Valid()
      ensures old(tasks[t].session) < |old(busy)| && State() == old(State()).Claim(t, live)
      ensures ok ==> State() == old(State()).(busy := busy, tasks := old(tasks)[t := old(tasks[t]).(phase := Claimed)])
      ensures !ok ==> State() == old(State()).Abandon(t)
      ensures ok <==> live && !old(Held(State(), tasks[t].key))
      ensures ok ==> State().In(t, Claimed) && Public(State(), t)
      ensures ok ==> forall u :: u in tasks && tasks[u].phase.HoldsSession() && tasks[u].key == tasks[t].key ==> u == t
      ensures !ok ==>
                tasks == old(tasks) - {t} && running == old(running) - {t}
                  && spawning == old(spawning) - {old(tasks[t].key)}
    {
      BusyMeansHeld(State(), t);
      var o := tasks[t].session;
      ok := busy[o].None? && live;
      if !ok {
        Abandon(t);
        return;
      }
      StepIsReachable(State(), Claims(t, live));
      busy := busy[o := Some(t)];
      tasks := tasks[t := tasks[t].(phase := Claimed)];
      HolderIsAlone(State(), t);
    }

    /** The row is open in the ledger before the task starts; no other row changes. */
    method RecordTask(t: nat)
      requires Valid() && State().In(t, Registered)
      modifies this, ledger
      ensures Valid() && State() == old(State()).Record(t)
      ensures t !in old(Ids(ledger.tasks)) && OpenIds(ledger.tasks) == old(OpenIds(ledger.tasks)) + {t}
      ensures ledger.tasks == old(ledger.tasks) + [Row(t, old(tasks[t].key), Running, Pending, 0, 0, None)]
    {
      RecordOpensOne(State(), t);
      ledger.StartTask(t, tasks[t].key);
      tasks := tasks[t := tasks[t].(phase := Recorded)];
    }

    method RegisterTask(t: nat)
      requires Valid() && State().In(t, Claimed)
      modifies this
      ensures Valid() && State() == old(State()).Register(t)
    {
      StepIsReachable(State(), Registers(t));
      tasks := tasks[t := tasks[t].(phase := Registered)];
    }

    method LaunchTask(t: nat)
      requires Valid() && State().In(t, Recorded)
      modifies this
      ensures Valid() && State() == old(State()).Launch(t)
    {
      StepIsReachable(State(), Launches(t));
      tasks := tasks[t := tasks[t].(phase := Working)];
    }

    method DropGuard(t: nat)
      requires Valid() && Possible(State(), Returns(t))
      modifies this
      ensures Valid() && State() == old(State()).Return(t)
      ensures !InFlight(State(), tasks[t].key)
    {
      StepIsReachable(State(), Returns(t));
      GuardsAreInFlight(State().Return(t), tasks[t].key);
      spawning := spawning - {tasks[t].key};
      tasks := tasks[t := tasks[t].(guard := false)];
    }

    /** One attempt per key, with a permit, or nothing but a used-up number. */
    method Reserve(key: string) returns (attempt: Option<nat>)
      requires Valid() && reconciled
      modifies this
      ensures Valid() && (key !in old(spawning) <==> !old(InFlight(State(), key)))
      ensures attempt.Some? <==> !old(InFlight(State(), key)) && |old(Holders(State()))| < old(State()).Capacity()
      ensures attempt.None? ==> State() == old(State()).(nextId := nextId)
      ensures attempt.Some? ==>
              var t, s := attempt.value, old(State());
              t == s.nextId && t !in s.tasks && t !in s.permits && State() == Reserved(s, key)
    {
      GuardsAreInFlight(State(), key);
      PermitsAreHolders(State());
      if key !in spawning {
        ReserveMeans(State(), key);
      }
      attempt := BeginSpawn(key);
      if attempt.None? {
        return;
      }
      var ok := TryAcquire(attempt.value);
      if !ok {
        attempt := None;
      }
    }

    method OpenSession(t: nat)
      requires Valid() && State().In(t, Permitted)
      modifies this
      ensures Valid() && State() == WithSession(old(State()), t)
    {
      LookUpSession(t);
      if tasks[t].phase.Opening? {
        PublishSession(t);
      }
    }

    /** The claimed task is recorded and starts, and the spawn call returns. */
    method StartTask(t: nat)
      requires Valid() && State().In(t, Claimed)
      modifies this, ledger
      ensures Valid() && State() == Started(old(State()), t)
              && OpenIds(ledger.tasks) == old(OpenIds(ledger.tasks)) + {t}
    {
      ClaimedHasGuard(State(), t);
      StartedValue(State(), t);
      RegisterTask(t);
      RecordTask(t);
      LaunchTask(t);
      DropGuard(t);
    }

    method ClaimAndStart(t: nat, live: bool) returns (ok: bool)
      requires Valid() && State().In(t, Opened)
      modifies this, ledger
      ensures Valid() && deliveries == old(deliveries) && spawning == old(spawning) - {old(tasks[t].key)}
      ensures ok <==> live && !old(Held(State(), tasks[t].key))
      ensures !ok ==> tasks == old(tasks) - {t} && running == old(running) - {t} && ledger.tasks == old(ledger.tasks)
      ensures ok ==> running == old(running) && OpenIds(ledger.tasks) == old(OpenIds(ledger.tasks)) + {t}
      ensures ok ==>
                State().In(t, Working) && tasks == old(tasks)[t := old(tasks[t]).(phase := Working, guard := false)]
      ensures ok ==> Public(State(), t) && tasks[t].session < |busy| && busy[tasks[t].session] == Some(t)
    {
      ok := ClaimSession(t, live);
      if ok {
        FlagNamesHolder(State(), t);
        StartTask(t);
      }
    }

    /** With its permit, the attempt becomes a task exactly when the session is loaded and no task of the key holds
        it. */
    method Proceed(t: nat, live: bool) returns (ok: bool)
      requires Valid() && State().In(t, Permitted)
      modifies this, ledger
      ensures Valid() && deliveries == old(deliveries) && spawning == old(spawning) - {old(tasks[t].key)}
      ensures ok <==> live && !old(Held(State(), tasks[t].key))
      ensures !ok ==> tasks == old(tasks) - {t} && running == old(running) - {t} && ledger.tasks == old(ledger.tasks)
      ensures ok ==> running == old(running) && OpenIds(ledger.tasks) == old(OpenIds(ledger.tasks)) + {t}
      ensures ok ==> State().In(t, Working) && tasks == old(tasks)[t := tasks[t]] && tasks[t].key == old(tasks[t].key)
      ensures ok ==> tasks[t].cancelled == old(tasks[t].cancelled)
      ensures ok ==> Public(State(), t) && tasks[t].session < |busy| && busy[tasks[t].session] == Some(t)
    {
      ghost var before := State();
      WithSessionValue(before, t);
      OpenSession(t);
      HeldByOthers(before, State(), t);
      ok := ClaimAndStart(t, live);
    }

    /** A whole spawn, when nothing comes in between: it succeeds exactly when no spawn for the key is in flight, a
        permit is left, the session is loaded and no task holds it. A spawn that fails leaves no trace but, at most, a
        session. */
    method Spawn(key: string, live: bool) returns (spawned: Option<nat>)
      requires Valid() && reconciled
      modifies this, ledger
      ensures Valid() && deliveries == old(deliveries)
      ensures spawned.Some? <==>
              && live && !old(InFlight(State(), key)) && !old(Held(State(), key))
              && |old(Holders(State()))| < old(State()).Capacity()
      ensures spawning == old(spawning)
      ensures spawned.None? ==> tasks == old(tasks) && running == old(running) && ledger.tasks == old(ledger.tasks)
      ensures spawned.Some? ==>
              var t := spawned.value;
              && t !in old(tasks) && State().In(t, Working) && tasks == old(tasks)[t := tasks[t]]
              && running == old(running) + {t}
              && tasks[t].key == key && !tasks[t].cancelled
              && Public(State(), t) && tasks[t].session < |busy|
              && busy[tasks[t].session] == Some(t)
              && OpenIds(ledger.tasks) == old(OpenIds(ledger.tasks)) + {t}
    {
      ghost var before := State();
      spawned := Reserve(key);
      if spawned.Some? {
        var t := spawned.value;
        ReservationAddsOne(before, key);
        var ok := Proceed(t, live);
        if !ok {
          spawned := None;
        }
      }
    }

    /** Cancelling before finalization has read the flag silences the task for the rest of the run. */
    method Cancel(t: nat)
      requires Valid() && Possible(State(), Cancels(t))
      modifies this
      ensures Valid() && State() == old(State()).Cancel(t)
      ensures !tasks[t].phase.Decided() ==> Muted(State(), t)
      ensures t in old(tasks) && tasks == old(tasks)[t := old(tasks)[t].(cancelled := true)]
    {
      CancelMutes(State(), t);
      tasks := tasks[t := tasks[t].(cancelled := true)];
    }

    /** The cancelled flag is read once, here; it decides both the status and the callback. */
    method MarkOutcome(t: nat, status: Status)
      requires Valid() && State().In(t, Working) && !status.IsOpen()
      modifies this
      ensures Valid() && State() == old(State()).Mark(t, status)
      ensures tasks[t].silenced == old(tasks[t].cancelled) && tasks == old(tasks)[t := tasks[t]]
      ensures tasks[t].silenced ==> Silent(State(), t)
      ensures !tasks[t].silenced ==> tasks[t].status == status && State().Undelivered(t) && t !in deliveries
    {
      MarkMeans(State(), t, status);
      var cancelled := tasks[t].cancelled;
      var final := if cancelled then Cancelled else status;
      var callback := if cancelled then Suppressed else Pending;
      tasks := tasks[t := tasks[t].(phase := Marked, silenced := cancelled, status := final, callback := callback)];
    }

    /** The flag always names this task when it comes here; afterwards none does, and the others stand. */
    method FreeSession(t: nat)
      requires Valid() && State().In(t, Marked)
      modifies this
      ensures Valid() && Possible(old(State()), Frees(t)) && State() == old(State()).Free(t)
      ensures tasks[t].session < |busy| && busy == old(busy)[tasks[t].session := None]
      ensures forall o :: 0 <= o < |busy| ==> busy[o] != Some(t)
      ensures !Held(State(), tasks[t].key)
    {
      FlagNamesHolder(State(), t);
      FreeMeans(State(), t);
      var o := tasks[t].session;
      if busy[o] == Some(t) {
        busy := busy[o := None];
      }
      tasks := tasks[t := tasks[t].(phase := Freed)];
    }

    /** Closing, suppressing and pruning are one save: exactly this row leaves the open ones. */
    method CloseRow(t: nat, turns: nat, tokens: nat, error: Option<string>)
      requires Valid() && State().In(t, Freed)
      modifies this, ledger
      ensures Valid() && State() == old(State()).CloseRow(t, turns, tokens, error)
      ensures OpenIds(ledger.tasks) == old(OpenIds(ledger.tasks)) - {t}
      ensures tasks[t].silenced ==> Settled(State(), t) && RowsSay(ledger.tasks, t, Cancelled, Suppressed)
      ensures RowEnded(ledger.tasks, old(ledger.tasks), t, tasks[t].status, turns, tokens, error)
    {
      RowsAreDistinct(State());
      ClosedRowEnded(State(), t, turns, tokens, error);
      CloseMeans(State(), t, turns, tokens, error);
      ledger.FinishTask(t, tasks[t].status, turns, tokens, error);
      if tasks[t].silenced {
        ledger.SetCallbackState(t, Suppressed);
      }
      ledger.Prune();
      tasks := tasks[t := tasks[t].(phase := Closed)];
    }

    /** Nothing is handed over here: a silenced or unconfigured task gives back its permit and is settled for good, any
        other is first marked as sent on disk. */
    method Conclude(t: nat, configured: bool)
      requires Valid() && State().In(t, Closed)
      modifies this, ledger
      ensures Valid() && State() == old(State()).Conclude(t, configured)
      ensures deliveries == old(deliveries) && OpenIds(ledger.tasks) == old(OpenIds(ledger.tasks))
      ensures tasks[t].silenced || !configured ==> State().In(t, Finished) && t !in running && Settled(State(), t)
      ensures !tasks[t].silenced && configured ==>
              State().In(t, Announced) && t !in deliveries
                && forall row :: row in ledger.tasks && row.id == t ==> row.callback == Sent
      ensures ledger.tasks ==
              if tasks[t].silenced || !configured then old(ledger.tasks) else WithCallback(old(ledger.tasks), t, Sent)
    {
      ConcludeMeans(State(), t, configured);
      if tasks[t].silenced || !configured {
        tasks := tasks[t := tasks[t].(phase := Finished)];
        running := running - {t};
        return;
      }
      ledger.SetCallbackState(t, Sent);
      tasks := tasks[t := tasks[t].(phase := Announced, callback := Sent)];
    }

    /** The only hand-over of this task, in this run or any later one. */
    method Deliver(t: nat)
      requires Valid() && State().In(t, Announced)
      modifies this
      ensures Valid() && State() == old(State()).Deliver(t)
      ensures t !in old(deliveries) && deliveries == old(deliveries) + [t]
      ensures NoRepeats(deliveries) && Settled(State(), t)
    {
      DeliverMeans(State(), t);
      deliveries := deliveries + [t];
      tasks := tasks[t := tasks[t].(phase := Delivered)];
    }

    method DropPermit(t: nat)
      requires Valid() && State().In(t, Delivered)
      modifies this
      ensures Valid() && State() == old(State()).Release(t)
    {
      StepIsReachable(State(), Finishes(t));
      running := running - {t};
      tasks := tasks[t := tasks[t].(phase := Finished)];
    }

    /** The outcome is decided, the session freed and the row closed. */
    method EndTask(t: nat, status: Status, turns: nat, tokens: nat, error: Option<string>)
      requires Valid() && State().In(t, Working) && !status.IsOpen()
      modifies this, ledger
      ensures Valid() && State().In(t, Closed) && running == old(running) && deliveries == old(deliveries)
      ensures tasks[t].session < |old(busy)| && busy == old(busy)[tasks[t].session := None]
      ensures tasks[t].silenced == old(tasks[t].cancelled)
      ensures tasks[t].status == (if tasks[t].silenced then Cancelled else status)
      ensures tasks[t].callback == (if tasks[t].silenced then Suppressed else Pending)
      ensures OpenIds(ledger.tasks) == old(OpenIds(ledger.tasks)) - {t}
      ensures RowEnded(ledger.tasks, old(ledger.tasks), t, tasks[t].status, turns, tokens, error)
      ensures tasks[t].silenced ==> RowsSay(ledger.tasks, t, Cancelled, Suppressed)
    {
      MarkOutcome(t, status);
      FreeSession(t);
      CloseRow(t, turns, tokens, error);
    }

    /** A closed task is handed over, or is not, and gives back its permit. */
    method Report(t: nat, configured: bool)
      requires Valid() && State().In(t, Closed)
      modifies this, ledger
      ensures Valid() && running == old(running) - {t} && busy == old(busy)
              && OpenIds(ledger.tasks) == old(OpenIds(ledger.tasks))
      ensures deliveries == old(deliveries) + if old(tasks[t].silenced) || !configured then [] else [t]
      ensures State().In(t, Finished) && Settled(State(), t)
      ensures tasks[t] == old(tasks[t]).(phase := Finished, callback := tasks[t].callback)
      ensures tasks[t].callback == if old(tasks[t].silenced) || !configured then old(tasks[t].callback) else Sent
      ensures ledger.tasks ==
              if old(tasks[t].silenced) || !configured then old(ledger.tasks)
                  else WithCallback(old(ledger.tasks), t, Sent)
    {
      Conclude(t, configured);
      if tasks[t].phase.Announced? {
        Deliver(t);
        DropPermit(t);
      }
    }

    /** The whole of finalization, when nothing comes in between. */
    method Finalize(t: nat, status: Status, turns: nat, tokens: nat, error: Option<string>, configured: bool)
      requires Valid() && State().In(t, Working) && !status.IsOpen()
      modifies this, ledger
      ensures Valid() && State().In(t, Finished) && running == old(running) - {t}
      ensures tasks[t].session < |old(busy)| && busy == old(busy)[tasks[t].session := None]
      ensures deliveries == old(deliveries) + if old(tasks[t].cancelled) || !configured then [] else [t]
      ensures tasks[t].status == if old(tasks[t].cancelled) then Cancelled else status
      ensures tasks[t].callback ==
              if old(tasks[t].cancelled) then Suppressed else if configured then Sent else Pending
      ensures OpenIds(ledger.tasks) == old(OpenIds(ledger.tasks)) - {t} && Settled(State(), t)
      ensures RowEnded(ledger.tasks, old(ledger.tasks), t, tasks[t].status, turns, tokens, error)
      ensures old(tasks[t].cancelled) || configured ==>
                forall row :: row in ledger.tasks && row.id == t ==> row.callback == tasks[t].callback
    {
      ghost var before := ledger.tasks;
      EndTask(t, status, turns, tokens, error);
      RowsAreDistinct(State());
      CallbackKeepsEnded(ledger.tasks, before, t, tasks[t].status, turns, tokens, error, Sent);
      Report(t, configured);
    }

    method BeginReconcile(configured: bool)
      requires Valid()
      modifies this, ledger
      ensures Valid() && State() == old(State()).Reconcile(configured)
    {
      StepIsReachable(State(), Reconciles(configured));
      if reconciled {
        return;
      }
      reconciled := true;
      var open := ledger.OpenTasks();
      if |open| == 0 {
        return;
      }
      CloseOpenRows(configured);
    }

    method CloseOpenRows(configured: bool)
      modifies this`queue, ledger
      ensures ledger.tasks == Pruned(AllInterrupted(old(ledger.tasks), RESTARTED))
      ensures queue == if configured then IdsInOrder(Interruptions(old(ledger.tasks), RESTARTED)) else []
    {
      var changed := ledger.InterruptOpenTasks(RESTARTED);
      ledger.Prune();
      queue := if configured then IdsInOrder(changed) else [];
    }

    method ReportNext()
      requires Valid() && queue != [] && !announced
      modifies this, ledger
      ensures Valid() && State() == old(State()).ReportNext()
    {
      ReportNextIsReachable(State());
      ledger.SetCallbackState(queue[0], Sent);
      deliveries := deliveries + [queue[0]];
      queue := queue[1..];
      announced := false;
    }

    /** Reconciliation from start to end: afterwards no row is open, and each formerly open one was reported once. */
    method Reconcile(configured: bool)
      requires Valid() && !reconciled && !announced
      modifies this, ledger
      ensures Valid() && reconciled && tasks == map[]
      ensures State() == ReportAll(old(State()).Reconcile(configured))
      ensures OpenIds(ledger.tasks) == {}
      ensures deliveries == old(deliveries) +
              if configured then IdsInOrder(Interruptions(old(ledger.tasks), RESTARTED)) else []
      ensures forall t: nat ::
                t in deliveries <==> t in old(deliveries) || (configured && t in old(OpenIds(ledger.tasks)))
      ensures NoRepeats(deliveries)
      ensures forall row :: row in ledger.tasks ==> IsReconciled(row, old(ledger.tasks), configured)
    {
      NotYetReconciled(State());
      ReconcileReports(State(), configured);
      ReconcileClosesRows(State(), configured);
      BeginReconcile(configured);
      ReportsKeepRowsClosed(State());
      while queue != []
        invariant Valid() && !announced && ReportAll(State()) == ReportAll(old(State()).Reconcile(configured))
        decreases |queue|
      {
        ReportNext();
      }
      RowsAreDistinct(State());
    }
  }

  /** A row that was open says that it was interrupted, and that this is reported if it is; every other row is as it
      was. */
  ghost predicate IsReconciled(row: Row, before: seq<Row>, configured: bool) {
    if row.id in OpenIds(before) then
      && row.status == Interrupted && row.error == Some("Portal restarted while the task was running")
      && (configured ==> row.callback == Sent)
    else row in before
  }

  lemma InterruptedRows(rows: seq<Row>)
    requires DistinctIds(rows)
    ensures forall row :: row in AllInterrupted(rows, RESTARTED) ==> IsReconciled(row, rows, false)
  {
    var after := AllInterrupted(rows, RESTARTED);
    forall row | row in after ensures IsReconciled(row, rows, false) {
      var i :| 0 <= i < |after| && after[i] == row;
      if row.id in OpenIds(rows) {
        var j :| 0 <= j < |rows| && rows[j].status.IsOpen() && rows[j].id == row.id;
        assert rows[i].id == row.id;
        assert i == j;
      }
    }
  }

  lemma {:induction false} ReportedRows(s: Manager)
    requires !s.announced && DistinctIds(s.rows)
    ensures forall row :: row in ReportAll(s).rows ==>
              if row.id in s.queue
                  then row.callback == Sent && exists was :: was in s.rows && row == was.(callback := Sent)
              else row in s.rows
    decreases |s.queue|
  {
    if s.queue != [] {
      var t := s.queue[0];
      CallbackRow(s.rows, t, Sent);
      CallbackKeepsStatus(s.rows, t, Sent);
      ReportedRows(s.ReportNext());
      assert forall u :: u in s.queue <==> u == t || u in s.queue[1..];
    }
  }

  lemma ReconcileReports(s: Manager, configured: bool)
    requires DistinctIds(s.rows) && !s.reconciled && s.queue == [] && !s.announced
    ensures var e := ReportAll(s.Reconcile(configured));
            && (forall t: nat :: t in e.deliveries <==> t in s.deliveries || (configured && t in OpenIds(s.rows)))
            && (forall row :: row in e.rows ==> IsReconciled(row, s.rows, configured))
  {
    var mid := s.Reconcile(configured);
    ReconcileClosesRows(s, configured);
    ReconcileInterrupts(s, configured);
    ReportedRows(mid);
    QueueIsOpenRows(s.rows);
  }

  lemma ReconcileInterrupts(s: Manager, configured: bool)
    requires DistinctIds(s.rows) && !s.reconciled
    ensures forall row :: row in s.Reconcile(configured).rows ==> IsReconciled(row, s.rows, false)
  {
    InterruptedRows(s.rows);
    PrunedRows(AllInterrupted(s.rows, RESTARTED));
    NothingToInterrupt(s.rows);
  }

  lemma QueueIsOpenRows(rows: seq<Row>)
    requires DistinctIds(rows)
    ensures forall t: nat :: t in IdsInOrder(Interruptions(rows, RESTARTED)) <==> t in OpenIds(rows)
  {
    InterruptionsAreTheOpenRows(rows, RESTARTED);
    var open := Interruptions(rows, RESTARTED);
    forall t: nat ensures t in IdsInOrder(open) <==> t in Ids(open) {
      if t in Ids(open) {
        var i :| 0 <= i < |open| && open[i].id == t;
        assert IdsInOrder(open)[i] == t;
      }
    }
  }

  lemma NotYetReconciled(s: Manager)
    requires Reachable(s) && !s.reconciled
    ensures DistinctIds(s.rows) && s.queue == [] && s.tasks == map[]
  {
    ReachableSatisfiesInv(s);
    assert RowsInv(s) && DeliveryInv(s);
    assert forall t :: t !in s.tasks;
  }

  lemma ReportNextIsReachable(s: Manager)
    requires Reachable(s) && s.queue != [] && !s.announced
    ensures Reachable(s.ReportNext())
  {
    StepIsReachable(s, AnnouncesInterrupted);
    StepIsReachable(s.AnnounceInterrupted(), DeliversInterrupted);
  }

  lemma ReconcileClosesRows(s: Manager, configured: bool)
    requires DistinctIds(s.rows) && !s.reconciled && s.queue == []
    ensures var s' := s.Reconcile(configured);
            && DistinctIds(s'.rows) && OpenIds(s'.rows) == {}
            && s'.queue == if configured then IdsInOrder(Interruptions(s.rows, RESTARTED)) else []
  {
    InterruptClosesAll(s.rows, RESTARTED);
    PruneKeepsOpen(AllInterrupted(s.rows, RESTARTED));
    NothingToInterrupt(s.rows);
  }

  lemma NothingToInterrupt(rows: seq<Row>)
    requires DistinctIds(rows)
    ensures OpenRows(rows) == [] <==> OpenIds(rows) == {}
    ensures OpenRows(rows) == [] ==> Interruptions(rows, RESTARTED) == []
  {
    NoOpenRows(rows);
    InterruptionsAreTheOpenRows(rows, RESTARTED);
    var open := Interruptions(rows, RESTARTED);
    assert open != [] ==> open[0].id in Ids(open);
  }
}
