/**
 Starts, calls and health of kits under concurrency. Each function is one critical section of the
 manager's lock; `System` interleaves them with refreshes, dying processes and abandoned callers.
 */
module KitCalls {
  import opened Basics
  import opened KitLoader
  import opened KitRegistry

  const MAX_FAILURES: nat := 3

  // ---------------------------------------------------------------- health of one entry

  function RecoverIfCooledDown(e: Entry, cooled: bool): Entry {
    if e.unhealthy && e.failedBefore && cooled then e.(unhealthy := false, failures := 0) else e
  }

  function RecordFailure(e: Entry): Entry {
    var failures := if e.failures < 255 then e.failures + 1 else 255;
    e.(failures := failures, failedBefore := true, unhealthy := e.unhealthy || failures >= MAX_FAILURES)
  }

  /** The entry after the start checks, and whether a start may go ahead. */
  function CheckStartable(e: Entry, cooled: bool): (Entry, bool) {
    if e.kit.Misconfigured() then (e, false)
    else
      var e := RecoverIfCooledDown(e, cooled);
      if e.unhealthy then (e, false)
      else if e.failures >= MAX_FAILURES then (e.(unhealthy := true), false)
      else (e, true)
  }

  // ---------------------------------------------------------------- critical sections

  /** A spawned process remembers the command, environment and directory it was started from. */
  datatype Connection = Connection(kit: Kit, alive: bool)

  datatype StartDecision = Reuse(connection: nat) | Spawn(kit: Kit) | Refuse

  datatype SpawnOutcome = Spawned | SpawnFailed | SpawnCancelled

  datatype CallOutcome = Succeeded | Rejected | TimedOut | RemoteError | Broken

  predicate LiveConnection(e: Entry, connections: seq<Connection>) {
    e.connection.Some? && e.connection.value < |connections| && connections[e.connection.value].alive
  }

  /** Decide under the lock: reuse a live connection, take over a dead one and spawn, or refuse. */
  function BeginStart(kits: Registry, connections: seq<Connection>, name: string, generation: nat, cooled: bool,
          slotFree: bool)
    : (Registry, StartDecision)
  {
    if name !in kits || kits[name].generation != generation then (kits, Refuse)
    else if LiveConnection(kits[name], connections) then (kits, Reuse(kits[name].connection.value))
    else
      var (e, startable) := CheckStartable(kits[name], cooled);
      if startable && slotFree then (kits[name := e.(connection := None)], Spawn(e.kit))
      else (kits[name := e], Refuse)
  }

  predicate StillCurrent(kits: Registry, name: string, generation: nat, stopping: bool) {
    name in kits && kits[name].generation == generation && !stopping
  }

  /** Install the spawned connection, or record the failure, only for the generation that asked. */
  function FinishStart(kits: Registry, name: string, generation: nat, stopping: bool, outcome: SpawnOutcome,
          connection: nat): Registry {
    if outcome.SpawnCancelled? || !StillCurrent(kits, name, generation, stopping) then kits
    else if outcome.Spawned? then kits[name := kits[name].(connection := Some(connection))]
    else kits[name := RecordFailure(kits[name])]
  }

  predicate Current(kits: Registry, name: string, connection: nat) {
    name in kits && kits[name].connection == Some(connection)
  }

  function FinishCall(kits: Registry, name: string, connection: nat, outcome: CallOutcome): Registry {
    if outcome.Succeeded? then
      if name !in kits then kits
      else
        var e := kits[name].(unsentCalls := kits[name].unsentCalls + 1);
        kits[name := if Current(kits, name, connection) then e.(failures := 0) else e]
    else if outcome.Broken? && Current(kits, name, connection) then
      kits[name := RecordFailure(kits[name].(connection := None))]
    else kits
  }

  function Disconnect(kits: Registry): Registry {
    map n | n in kits :: kits[n].(connection := None)
  }

  // ---------------------------------------------------------------- the interleaving

  /** A caller between two critical sections. The start lock is renewed with the generation, so it is named by it. */
  datatype Caller =
    | Resolved(name: string, generation: nat)
    | Gated(name: string, generation: nat, gate: nat)
    | Starting(name: string, generation: nat, gate: nat)
    | Spawning(name: string, generation: nat, gate: nat, kit: Kit)
    | Calling(name: string, connection: nat)
  {
    predicate HoldsGate() {
      Starting? || Spawning?
    }
  }

  /** `blamed` is history: the connections whose failing calls were recorded, in order. */
  datatype System = System(
    kits: Registry,
    nextGeneration: nat,
    connections: seq<Connection>,
    callers: map<nat, Caller>,
    stopping: bool,
    blamed: seq<nat>)
  {
    function Leave(c: nat): System {
      this.(callers := callers - {c})
    }

    predicate GateFree(gate: nat) {
      forall c :: c in callers && callers[c].HoldsGate() ==> callers[c].gate != gate
    }
  }

  datatype Event =
    | Resolve(caller: nat, name: string)
    | CloneGate(caller: nat)
    | LockGate(caller: nat)
    | Begin(caller: nat, cooled: bool, slotFree: bool)
    | Finish(caller: nat, spawn: SpawnOutcome)
    | Complete(caller: nat, call: CallOutcome)
    | Abandon(caller: nat)
    | Die(connection: nat)
    | Recover(name: string, cooled: bool)
    | RefreshTo(refresh: Refresh, kits: Registry, nextGeneration: nat)
    | Stop
    | Clear

  ghost predicate Enabled(s: System, ev: Event) {
    match ev
    case Resolve(c, name) => c !in s.callers && name in s.kits
    case CloneGate(c) => c in s.callers && s.callers[c].Resolved?
    case LockGate(c) => c in s.callers && s.callers[c].Gated? && s.GateFree(s.callers[c].gate)
    case Begin(c, _, _) => c in s.callers && s.callers[c].Starting?
    case Finish(c, _) => c in s.callers && s.callers[c].Spawning?
    case Complete(c, _) => c in s.callers && s.callers[c].Calling?
    case Abandon(c) => c in s.callers
    case Die(k) => k < |s.connections|
    case Recover(name, _) => name in s.kits
    // A refresh or a caller may have looked at the stop flag just before it went up.
    case RefreshTo(r, kits, next) => r.scan.Valid() && r.Yields(s.kits, s.nextGeneration, kits, next)
    case Stop => true
    case Clear => s.stopping
  }

  function Kill(connections: seq<Connection>, k: nat): (r: seq<Connection>)
    requires k < |connections|
    ensures |r| == |connections|
    ensures forall i :: 0 <= i < |r| ==> r[i].kit == connections[i].kit
  {
    connections[k := connections[k].(alive := false)]
  }

  function KillAll(connections: seq<Connection>): (r: seq<Connection>)
    ensures |r| == |connections|
    ensures forall i :: 0 <= i < |r| ==> r[i] == connections[i].(alive := false)
  {
    seq(|connections|, i requires 0 <= i < |connections| => connections[i].(alive := false))
  }

  ghost function Apply(s: System, ev: Event): System
    requires Enabled(s, ev)
  {
    match ev
    case Resolve(c, name) => s.(callers := s.callers[c := Resolved(name, s.kits[name].generation)])
    case CloneGate(c) =>
      var k := s.callers[c];
      if k.name !in s.kits then s.Leave(c)
      else s.(callers := s.callers[c := Gated(k.name, k.generation, s.kits[k.name].generation)])
    case LockGate(c) =>
      var k := s.callers[c];
      s.(callers := s.callers[c := Starting(k.name, k.generation, k.gate)])
    case Begin(c, cooled, slotFree) => ApplyBegin(s, c, cooled, slotFree)
    case Finish(c, outcome) => ApplyFinish(s, c, outcome)
    case Complete(c, outcome) => ApplyComplete(s, c, outcome)
    case Abandon(c) => s.Leave(c)
    case Die(k) => s.(connections := Kill(s.connections, k))
    case Recover(name, cooled) => s.(kits := s.kits[name := RecoverIfCooledDown(s.kits[name], cooled)])
    case RefreshTo(_, kits, next) => s.(kits := kits, nextGeneration := next)
    case Stop => s.(stopping := true)
    case Clear => s.(kits := Disconnect(s.kits), connections := KillAll(s.connections))
  }

  ghost function ApplyBegin(s: System, c: nat, cooled: bool, slotFree: bool): System
    requires c in s.callers && s.callers[c].Starting?
  {
    var k := s.callers[c];
    var (kits, decision) := BeginStart(s.kits, s.connections, k.name, k.generation, cooled, slotFree);
    var s' := s.(kits := kits);
    match decision
    case Reuse(connection) => s'.(callers := s.callers[c := Calling(k.name, connection)])
    case Spawn(kit) => s'.(callers := s.callers[c := Spawning(k.name, k.generation, k.gate, kit)])
    case Refuse => s'.Leave(c)
  }

  ghost function ApplyFinish(s: System, c: nat, outcome: SpawnOutcome): System
    requires c in s.callers && s.callers[c].Spawning?
  {
    var k := s.callers[c];
    var connection := |s.connections|;
    var s' := s.(kits := FinishStart(s.kits, k.name, k.generation, s.stopping, outcome, connection));
    if outcome.Spawned? && StillCurrent(s.kits, k.name, k.generation, s.stopping) then
      s'.(connections := s.connections + [Connection(k.kit, true)],
        callers := s.callers[c := Calling(k.name, connection)])
    else s'.Leave(c)
  }

  ghost function ApplyComplete(s: System, c: nat, outcome: CallOutcome): System
    requires c in s.callers && s.callers[c].Calling?
  {
    var k := s.callers[c];
    var s' := s.(kits := FinishCall(s.kits, k.name, k.connection, outcome)).Leave(c);
    if outcome.Broken? && Current(s.kits, k.name, k.connection) && k.connection < |s.connections| then
      s'.(blamed := s.blamed + [k.connection], connections := Kill(s.connections, k.connection))
    else s'
  }

  // ---------------------------------------------------------------- invariants

  /** Health of one entry: unhealthy kits hold no connection, healthy ones are below the failure limit. */
  predicate Healthy(e: Entry) {
    && (e.unhealthy ==> e.connection.None?)
    && (!e.unhealthy ==> e.failures < MAX_FAILURES)
  }

  /** The installed connection was spawned from exactly the kit of the current generation. */
  predicate SpawnedFromCurrent(e: Entry, connections: seq<Connection>) {
    e.connection.Some? ==> e.connection.value < |connections| && connections[e.connection.value].kit == e.kit
  }

  ghost predicate NoDuplicates(s: seq<nat>) {
    forall i, j :: 0 <= i < j < |s| ==> s[i] != s[j]
  }

  /** Callers never run ahead of the registry, and a start in flight owns an entry without a connection. */
  ghost predicate CallerInv(s: System, c: nat)
    requires c in s.callers
  {
    var k := s.callers[c];
    match k
    case Resolved(n, g) => g < s.nextGeneration && (n in s.kits ==> g <= s.kits[n].generation)
    case Gated(n, g, gate) => g <= gate < s.nextGeneration && (n in s.kits ==> gate <= s.kits[n].generation)
    case Starting(n, g, gate) => g <= gate < s.nextGeneration && (n in s.kits ==> gate <= s.kits[n].generation)
    case Spawning(n, g, gate, kit) =>
      && g == gate < s.nextGeneration
      && (n in s.kits ==> g <= s.kits[n].generation)
      && (n in s.kits && s.kits[n].generation == g ==>
            kit == s.kits[n].kit && s.kits[n].connection.None? && !s.kits[n].unhealthy)
    case Calling(_, connection) => connection < |s.connections|
  }

  ghost predicate EntriesInv(kits: Registry, connections: seq<Connection>) {
    && (forall n :: n in kits ==> Healthy(kits[n]) && SpawnedFromCurrent(kits[n], connections))
    && (forall n, m :: n in kits && m in kits && n != m && kits[n].connection.Some? ==>
          kits[n].connection != kits[m].connection)
  }

  ghost predicate CallersInv(s: System) {
    && (forall c :: c in s.callers ==> CallerInv(s, c))
    && (forall c, d ::
        c in s.callers && d in s.callers && c != d && s.callers[c].HoldsGate() && s.callers[d].HoldsGate() ==>
          s.callers[c].gate != s.callers[d].gate)
  }

  ghost predicate BlameInv(kits: Registry, connections: seq<Connection>, blamed: seq<nat>) {
    && NoDuplicates(blamed)
    && (forall i :: 0 <= i < |blamed| ==> blamed[i] < |connections|)
    && (forall n, i :: n in kits && 0 <= i < |blamed| ==> kits[n].connection != Some(blamed[i]))
  }

  ghost predicate Inv(s: System) {
    && Exclusive(s.kits)
    && Numbered(s.kits, s.nextGeneration)
    && EntriesInv(s.kits, s.connections)
    && CallersInv(s)
    && BlameInv(s.kits, s.connections, s.blamed)
  }

  /** Only refreshes give an entry another kit or generation. */
  predicate SameIdentity(kits: Registry, kits': Registry) {
    && kits.Keys == kits'.Keys
    && forall n :: n in kits ==> kits'[n].kit == kits[n].kit && kits'[n].generation == kits[n].generation
  }

  lemma IdentityKeepsExclusive(kits: Registry, kits': Registry, next: nat)
    requires Exclusive(kits) && Numbered(kits, next) && SameIdentity(kits, kits')
    ensures Exclusive(kits') && Numbered(kits', next)
  {
    forall n, m | n in kits' && m in kits' && n != m
      ensures kits'[n].kit.dir != kits'[m].kit.dir && kits'[n].kit.RouteSet() !! kits'[m].kit.RouteSet()
    {
      assert n in kits && m in kits;
    }
  }

  /** A step that installs nothing: every connection stays or goes. */
  predicate Releases(kits: Registry, kits': Registry) {
    && SameIdentity(kits, kits')
    && forall n :: n in kits ==>
         && (Healthy(kits[n]) ==> Healthy(kits'[n]))
         && (kits'[n].connection == kits[n].connection || kits'[n].connection.None?)
  }

  predicate SameKits(connections: seq<Connection>, connections': seq<Connection>) {
    |connections| == |connections'| && forall i :: 0 <= i < |connections| ==> connections'[i].kit == connections[i].kit
  }

  lemma ReleaseKeepsEntries(kits: Registry, kits': Registry, connections: seq<Connection>,
          connections': seq<Connection>)
    requires EntriesInv(kits, connections) && Releases(kits, kits') && SameKits(connections, connections')
    ensures EntriesInv(kits', connections')
  {
    forall n | n in kits' ensures Healthy(kits'[n]) && SpawnedFromCurrent(kits'[n], connections') {
      assert n in kits;
    }
  }

  lemma BeginReleases(kits: Registry, connections: seq<Connection>, name: string, generation: nat, cooled: bool,
          slotFree: bool)
    ensures var (kits', decision) := BeginStart(kits, connections, name, generation, cooled, slotFree);
            && Releases(kits, kits')
            && (decision.Reuse? ==> decision.connection < |connections|)
            && (decision.Spawn? ==>
                  && name in kits && kits[name].generation == generation && decision.kit == kits[name].kit
                  && kits'[name].connection.None? && !kits'[name].unhealthy)
            && (forall n :: n in kits && n != name ==> kits'[n] == kits[n])
            && (forall n :: n in kits && kits[n].generation != generation ==> kits'[n] == kits[n])
  {
  }

  lemma BeginKeepsCallers(s: System, c: nat, cooled: bool, slotFree: bool)
    requires CallersInv(s) && c in s.callers && s.callers[c].Starting?
    ensures CallersInv(ApplyBegin(s, c, cooled, slotFree))
  {
    var s' := ApplyBegin(s, c, cooled, slotFree);
    var k := s.callers[c];
    BeginReleases(s.kits, s.connections, k.name, k.generation, cooled, slotFree);
    assert CallerInv(s, c);
    forall d | d in s'.callers ensures CallerInv(s', d) {
      if d != c {
        assert CallerInv(s, d);
        // Two holders of one gate cannot coexist.
        assert s.callers[d].HoldsGate() ==> s.callers[d].gate != k.gate;
      }
    }
  }

  lemma BeginKeepsInv(s: System, c: nat, cooled: bool, slotFree: bool)
    requires Inv(s) && c in s.callers && s.callers[c].Starting?
    ensures Inv(ApplyBegin(s, c, cooled, slotFree))
  {
    var s' := ApplyBegin(s, c, cooled, slotFree);
    var k := s.callers[c];
    BeginReleases(s.kits, s.connections, k.name, k.generation, cooled, slotFree);
    IdentityKeepsExclusive(s.kits, s'.kits, s.nextGeneration);
    ReleaseKeepsEntries(s.kits, s'.kits, s.connections, s'.connections);
    BeginKeepsCallers(s, c, cooled, slotFree);
  }

  lemma FinishKeepsCallers(s: System, c: nat, outcome: SpawnOutcome)
    requires CallersInv(s) && c in s.callers && s.callers[c].Spawning?
    ensures CallersInv(ApplyFinish(s, c, outcome))
  {
    var s' := ApplyFinish(s, c, outcome);
    var k := s.callers[c];
    assert CallerInv(s, c);
    forall d | d in s'.callers ensures CallerInv(s', d) {
      if d != c {
        assert CallerInv(s, d);
        assert s.callers[d].HoldsGate() ==> s.callers[d].gate != k.gate;
      }
    }
  }

  lemma FinishKeepsEntries(s: System, c: nat, outcome: SpawnOutcome)
    requires EntriesInv(s.kits, s.connections) && c in s.callers && s.callers[c].Spawning? && CallerInv(s, c)
    ensures var s' := ApplyFinish(s, c, outcome);
            && EntriesInv(s'.kits, s'.connections) && SameIdentity(s.kits, s'.kits)
            && forall n :: n in s.kits ==>
                 s'.kits[n].connection == s.kits[n].connection || s'.kits[n].connection == Some(|s.connections|)
  {
    var s' := ApplyFinish(s, c, outcome);
    forall n | n in s'.kits ensures Healthy(s'.kits[n]) && SpawnedFromCurrent(s'.kits[n], s'.connections) {
      assert n in s.kits && Healthy(s.kits[n]) && SpawnedFromCurrent(s.kits[n], s.connections);
    }
  }

  lemma FinishKeepsInv(s: System, c: nat, outcome: SpawnOutcome)
    requires Inv(s) && c in s.callers && s.callers[c].Spawning?
    ensures Inv(ApplyFinish(s, c, outcome))
  {
    var s' := ApplyFinish(s, c, outcome);
    assert CallerInv(s, c);
    FinishKeepsEntries(s, c, outcome);
    IdentityKeepsExclusive(s.kits, s'.kits, s.nextGeneration);
    FinishKeepsCallers(s, c, outcome);
    FinishKeepsBlame(s, s');
  }

  lemma FinishKeepsBlame(s: System, s': System)
    requires BlameInv(s.kits, s.connections, s.blamed) && s'.blamed == s.blamed && |s.connections| <= |s'.connections|
    requires s'.kits.Keys == s.kits.Keys
    requires forall n :: n in s.kits ==>
               s'.kits[n].connection == s.kits[n].connection || s'.kits[n].connection == Some(|s.connections|)
    ensures BlameInv(s'.kits, s'.connections, s'.blamed)
  {}

  lemma CompleteReleases(kits: Registry, name: string, connection: nat, outcome: CallOutcome)
    ensures var kits' := FinishCall(kits, name, connection, outcome);
            && Releases(kits, kits')
            && (forall n :: n in kits && kits[n].connection.None? ==>
                  kits'[n].connection.None? && kits'[n].unhealthy == kits[n].unhealthy)
            && (outcome.Broken? ==> !Current(kits', name, connection))
            && (forall n :: n in kits && n != name ==> kits'[n] == kits[n])
  {
  }

  lemma CompleteKeepsBlame(s: System, c: nat, outcome: CallOutcome)
    requires EntriesInv(s.kits, s.connections) && BlameInv(s.kits, s.connections, s.blamed)
    requires c in s.callers && s.callers[c].Calling?
    ensures var s' := ApplyComplete(s, c, outcome); BlameInv(s'.kits, s'.connections, s'.blamed)
  {
    var s' := ApplyComplete(s, c, outcome);
    var k := s.callers[c];
    CompleteReleases(s.kits, k.name, k.connection, outcome);
  }

  lemma CompleteKeepsCallers(s: System, c: nat, outcome: CallOutcome)
    requires CallersInv(s) && c in s.callers && s.callers[c].Calling?
    ensures CallersInv(ApplyComplete(s, c, outcome))
  {
    var s' := ApplyComplete(s, c, outcome);
    CompleteReleases(s.kits, s.callers[c].name, s.callers[c].connection, outcome);
    forall d | d in s'.callers ensures CallerInv(s', d) {
      assert CallerInv(s, d);
    }
  }

  lemma CompleteKeepsInv(s: System, c: nat, outcome: CallOutcome)
    requires Inv(s) && c in s.callers && s.callers[c].Calling?
    ensures Inv(ApplyComplete(s, c, outcome))
  {
    var s' := ApplyComplete(s, c, outcome);
    CompleteReleases(s.kits, s.callers[c].name, s.callers[c].connection, outcome);
    IdentityKeepsExclusive(s.kits, s'.kits, s.nextGeneration);
    ReleaseKeepsEntries(s.kits, s'.kits, s.connections, s'.connections);
    CompleteKeepsBlame(s, c, outcome);
    CompleteKeepsCallers(s, c, outcome);
  }

  lemma RefreshKeepsInv(s: System, r: Refresh, kits: Registry, next: nat)
    requires Inv(s) && Enabled(s, RefreshTo(r, kits, next))
    ensures Inv(s.(kits := kits, nextGeneration := next))
  {
    var s' := s.(kits := kits, nextGeneration := next);
    RefreshKeepsExclusive(r, s.kits, s.nextGeneration, kits, next);
    RefreshKeepsNumbering(r, s.kits, s.nextGeneration, kits, next);
    forall n | n in kits
      ensures (n in s.kits && kits[n] == s.kits[n]) || (kits[n].connection.None? && Healthy(kits[n]))
    {
      if r.AdoptsName(s.kits, n) {
        var k :| k in r.scan.kits && r.Adopts(s.kits, k) && k.name == n;
        assert r.AdoptedEntry(s.kits, k, kits[n], s.nextGeneration, next);
      }
    }
    forall d | d in s'.callers ensures CallerInv(s', d) {
      assert CallerInv(s, d);
    }
  }

  predicate Bookkeeping(ev: Event) {
    !ev.Begin? && !ev.Finish? && !ev.Complete? && !ev.RefreshTo?
  }

  lemma QuietKeepsCallers(s: System, ev: Event)
    requires CallersInv(s) && Enabled(s, ev) && (ev.Die? || ev.Recover? || ev.Stop? || ev.Clear?)
    ensures CallersInv(Apply(s, ev))
  {
    var s' := Apply(s, ev);
    assert s'.callers == s.callers;
    forall d | d in s'.callers ensures CallerInv(s', d) {
      assert CallerInv(s, d);
    }
  }

  lemma BookkeepingKeepsCallers(s: System, ev: Event)
    requires CallersInv(s) && Numbered(s.kits, s.nextGeneration) && Enabled(s, ev) && Bookkeeping(ev)
    ensures CallersInv(Apply(s, ev))
  {
    if ev.Die? || ev.Recover? || ev.Stop? || ev.Clear? {
      QuietKeepsCallers(s, ev);
    } else {
      if ev.Resolve? || ev.Abandon? {
        CallerComesOrGoes(s, ev);
      } else if ev.LockGate? {
        CallerLocksGate(s, ev.caller);
      } else {
        CallerClonesGate(s, ev.caller);
      }
    }
  }

  lemma CallerComesOrGoes(s: System, ev: Event)
    requires CallersInv(s) && Numbered(s.kits, s.nextGeneration) && Enabled(s, ev) && (ev.Resolve? || ev.Abandon?)
    ensures CallersInv(Apply(s, ev))
  {
    var s' := Apply(s, ev);
    forall d | d in s'.callers ensures CallerInv(s', d) {
      if d in s.callers {
        assert CallerInv(s, d);
      }
    }
  }

  lemma CallerLocksGate(s: System, c: nat)
    requires CallersInv(s) && Enabled(s, LockGate(c))
    ensures CallersInv(Apply(s, LockGate(c)))
  {
    var s' := Apply(s, LockGate(c));
    forall d | d in s'.callers ensures CallerInv(s', d) {
      assert CallerInv(s, d);
    }
  }

  lemma CallerClonesGate(s: System, c: nat)
    requires CallersInv(s) && Numbered(s.kits, s.nextGeneration) && Enabled(s, CloneGate(c))
    ensures CallersInv(Apply(s, CloneGate(c)))
  {
    var s' := Apply(s, CloneGate(c));
    forall d | d in s'.callers ensures CallerInv(s', d) {
      if d in s.callers {
        assert CallerInv(s, d);
      }
    }
  }

  lemma BookkeepingReleases(s: System, ev: Event)
    requires Enabled(s, ev) && Bookkeeping(ev)
    ensures var s' := Apply(s, ev);
            && Releases(s.kits, s'.kits) && SameKits(s.connections, s'.connections)
            && s'.nextGeneration == s.nextGeneration && s'.blamed == s.blamed
  {
    if !ev.Recover? && !ev.Clear? {
      CallersStepsKeepKits(s, ev);
    }
  }

  lemma CallersStepsKeepKits(s: System, ev: Event)
    requires Enabled(s, ev) && Bookkeeping(ev) && !ev.Recover? && !ev.Clear?
    ensures var s' := Apply(s, ev);
            && s'.kits == s.kits && SameKits(s.connections, s'.connections)
            && s'.nextGeneration == s.nextGeneration && s'.blamed == s.blamed
  {}

  lemma BookkeepingKeepsInv(s: System, ev: Event)
    requires Inv(s) && Enabled(s, ev) && Bookkeeping(ev)
    ensures Inv(Apply(s, ev))
  {
    BookkeepingReleases(s, ev);
    BookkeepingKeepsCallers(s, ev);
    ReleaseKeepsRest(s, Apply(s, ev));
  }

  lemma ReleaseKeepsRest(s: System, s': System)
    requires Inv(s) && Releases(s.kits, s'.kits) && SameKits(s.connections, s'.connections)
    requires s'.nextGeneration == s.nextGeneration && s'.blamed == s.blamed && CallersInv(s')
    ensures Inv(s')
  {
    IdentityKeepsExclusive(s.kits, s'.kits, s.nextGeneration);
    ReleaseKeepsEntries(s.kits, s'.kits, s.connections, s'.connections);
  }

  lemma StepKeepsInv(s: System, ev: Event)
    requires Inv(s) && Enabled(s, ev)
    ensures Inv(Apply(s, ev))
  {
    match ev
    case Begin(c, cooled, slotFree) => BeginKeepsInv(s, c, cooled, slotFree);
    case Finish(c, outcome) => FinishKeepsInv(s, c, outcome);
    case Complete(c, outcome) => CompleteKeepsInv(s, c, outcome);
    case RefreshTo(r, kits, next) => RefreshKeepsInv(s, r, kits, next);
    case _ => BookkeepingKeepsInv(s, ev);
  }

  // ---------------------------------------------------------------- runs

  ghost predicate RunOf(s: System, evs: seq<Event>)
    decreases |evs|
  {
    evs == [] || (Enabled(s, evs[0]) && RunOf(Apply(s, evs[0]), evs[1..]))
  }

  ghost function After(s: System, evs: seq<Event>): System
    requires RunOf(s, evs)
    decreases |evs|
  {
    if evs == [] then s else After(Apply(s, evs[0]), evs[1..])
  }

  ghost predicate Initial(s: System) {
    && Exclusive(s.kits) && Numbered(s.kits, s.nextGeneration)
    && (forall n :: n in s.kits ==> s.kits[n].connection.None? && (!s.kits[n].unhealthy ==> s.kits[n].failures == 0))
    && s.connections == [] && s.callers == map[] && s.blamed == []
  }

  lemma {:induction false} RunKeepsInv(s: System, evs: seq<Event>)
    requires Inv(s) && RunOf(s, evs)
    ensures Inv(After(s, evs))
    decreases |evs|
  {
    if evs != [] {
      StepKeepsInv(s, evs[0]);
      RunKeepsInv(Apply(s, evs[0]), evs[1..]);
    }
  }

  /** Over every interleaving: routes stay exclusive, installed connections belong to the current generation's kit,
      unhealthy kits have none, no connection is blamed twice, and the second refusal of the start checks cannot be
      reached. */
  lemma EveryRunIsSound(s: System, evs: seq<Event>)
    requires Initial(s) && RunOf(s, evs)
    ensures var e := After(s, evs);
            && Exclusive(e.kits)
            && (forall n :: n in e.kits ==> SpawnedFromCurrent(e.kits[n], e.connections) && Healthy(e.kits[n]))
            && NoDuplicates(e.blamed)
            && (forall n, cooled :: n in e.kits && !e.kits[n].kit.Misconfigured() ==>
                  var (checked, startable) := CheckStartable(e.kits[n], cooled);
                  !startable ==> checked == e.kits[n] && e.kits[n].unhealthy)
  {
    RunKeepsInv(s, evs);
  }

  /** A failing call on any connection but the installed one leaves the registry, hence all health, untouched. */
  lemma StaleFailureIsInert(s: System, c: nat, outcome: CallOutcome)
    requires Inv(s) && c in s.callers && s.callers[c].Calling? && !outcome.Succeeded?
    ensures var s' := ApplyComplete(s, c, outcome);
            s'.kits != s.kits ==>
            && outcome.Broken?
            && s.callers[c].name in s.kits
            && s.kits[s.callers[c].name].connection == Some(s.callers[c].connection)
            && s.callers[c].connection !in s.blamed
            && s'.kits[s.callers[c].name].connection == None
  {
    if s.callers[c].connection in s.blamed {
      var i :| 0 <= i < |s.blamed| && s.blamed[i] == s.callers[c].connection;
    }
  }

  /** A start that finishes for the current generation never replaces an installed connection. */
  lemma InstallNeverReplaces(s: System, c: nat)
    requires Inv(s) && c in s.callers && s.callers[c].Spawning?
    requires StillCurrent(s.kits, s.callers[c].name, s.callers[c].generation, s.stopping)
    ensures s.kits[s.callers[c].name].connection.None?
    ensures var s' := ApplyFinish(s, c, Spawned);
            && s'.kits[s.callers[c].name].connection == Some(|s.connections|)
            && s'.connections[|s.connections|] == Connection(s.kits[s.callers[c].name].kit, true)
  {
    assert CallerInv(s, c);
  }

  // ---------------------------------------------------------------- shutdown

  /** Stopping, with no connection installed and none alive. */
  ghost predicate Down(s: System) {
    && s.stopping
    && (forall n :: n in s.kits ==> s.kits[n].connection.None?)
    && (forall i :: 0 <= i < |s.connections| ==> !s.connections[i].alive)
  }

  lemma DownStays(s: System, ev: Event)
    requires Down(s) && Enabled(s, ev)
    ensures Down(Apply(s, ev))
  {
    var s' := Apply(s, ev);
    match ev
    case RefreshTo(r, kits, next) =>
      forall n | n in kits ensures kits[n].connection.None? {
        if r.AdoptsName(s.kits, n) {
          var k :| k in r.scan.kits && r.Adopts(s.kits, k) && k.name == n;
          assert r.AdoptedEntry(s.kits, k, kits[n], s.nextGeneration, next);
        }
      }
    case Begin(c, cooled, slotFree) =>
      BeginReleases(s.kits, s.connections, s.callers[c].name, s.callers[c].generation, cooled, slotFree);
    case Complete(c, outcome) => CompleteReleases(s.kits, s.callers[c].name, s.callers[c].connection, outcome);
    case _ =>
  }

  /** Once shutdown has cleared the registry nothing runs any more, whatever starts, calls and refreshes were in
      flight. */
  lemma {:induction false} StoppedStaysDown(s: System, evs: seq<Event>)
    requires Down(s) && RunOf(s, evs)
    ensures Down(After(s, evs))
    decreases |evs|
  {
    if evs != [] {
      DownStays(s, evs[0]);
      StoppedStaysDown(Apply(s, evs[0]), evs[1..]);
    }
  }

  // ---------------------------------------------------------------- refreshes among everything else

  /** What starts, calls and failures do to the registry, as far as refreshes look at it. */
  ghost predicate Drifts(kits: Registry, kits': Registry) {
    && SameIdentity(kits, kits')
    && forall n ::
         n in kits && kits'[n].unhealthy && !kits'[n].failedBefore ==> kits[n].unhealthy && !kits[n].failedBefore
  }

  lemma StepDrifts(s: System, ev: Event)
    requires Inv(s) && Enabled(s, ev) && !ev.RefreshTo?
    ensures Drifts(s.kits, Apply(s, ev).kits)
  {
    match ev
    case Begin(c, cooled, slotFree) => BeginDrifts(s, c, cooled, slotFree);
    case Finish(c, outcome) => FinishDrifts(s, c, outcome);
    case Complete(c, outcome) => CompleteDrifts(s.kits, s.callers[c].name, s.callers[c].connection, outcome);
    case _ => BookkeepingDrifts(s, ev);
  }

  lemma FinishDrifts(s: System, c: nat, outcome: SpawnOutcome)
    requires c in s.callers && s.callers[c].Spawning?
    ensures Drifts(s.kits, ApplyFinish(s, c, outcome).kits)
  {}

  lemma CompleteDrifts(kits: Registry, name: string, connection: nat, outcome: CallOutcome)
    ensures Drifts(kits, FinishCall(kits, name, connection, outcome))
  {}

  lemma BookkeepingDrifts(s: System, ev: Event)
    requires Enabled(s, ev) && Bookkeeping(ev)
    ensures Drifts(s.kits, Apply(s, ev).kits)
  {
    if !ev.Recover? && !ev.Clear? {
      CallersStepsKeepKits(s, ev);
    }
  }

  lemma BeginDrifts(s: System, c: nat, cooled: bool, slotFree: bool)
    requires EntriesInv(s.kits, s.connections) && c in s.callers && s.callers[c].Starting?
    ensures Drifts(s.kits, ApplyBegin(s, c, cooled, slotFree).kits)
  {
    var k := s.callers[c];
    BeginReleases(s.kits, s.connections, k.name, k.generation, cooled, slotFree);
    assert k.name in s.kits ==> Healthy(s.kits[k.name]);
  }

  /** A refresh rejects, keeps and drops by kits alone. */
  lemma DriftKeepsDecisions(r: Refresh, kits: Registry, kits': Registry)
    requires SameIdentity(kits, kits')
    ensures forall k :: r.Rejects(kits', k) <==> r.Rejects(kits, k)
    ensures r.RejectedDirs(kits') == r.RejectedDirs(kits)
    ensures forall k :: r.Adopts(kits', k) <==> r.Adopts(kits, k)
    ensures forall n :: r.Drops(kits', n) <==> r.Drops(kits, n)
  {
    forall k ensures r.Rejects(kits', k) <==> r.Rejects(kits, k) {}
    assert r.RejectedDirs(kits') == r.RejectedDirs(kits);
    forall k ensures r.Keeps(kits', k) <==> r.Keeps(kits, k) {}
    forall n ensures r.KeepsName(kits', n) <==> r.KeepsName(kits, n) {}
  }

  lemma DriftKeepsQuiet(r: Refresh, kits: Registry, kits': Registry)
    requires Drifts(kits, kits') && Periodic(r)
    ensures AppliedKits(kits', r.scan) == AppliedKits(kits, r.scan)
    ensures Reconciled(r, kits) ==> Reconciled(r, kits')
    ensures Quiet(r, kits) ==> Quiet(r, kits')
  {
    DriftKeepsDecisions(r, kits, kits');
  }

  predicate RefreshesWith(evs: seq<Event>, r: Refresh) {
    forall i :: 0 <= i < |evs| && evs[i].RefreshTo? ==> evs[i].refresh == r
  }

  /** How many refreshes of a run found something to change. */
  ghost function Changes(s: System, evs: seq<Event>, r: Refresh): nat
    requires RunOf(s, evs)
    decreases |evs|
  {
    if evs == [] then 0
    else (if evs[0].RefreshTo? && !Quiet(r, s.kits) then 1 else 0) + Changes(Apply(s, evs[0]), evs[1..], r)
  }

  lemma RefreshAppliesMore(s: System, ev: Event, r: Refresh)
    requires Inv(s) && Enabled(s, ev) && ev.RefreshTo? && ev.refresh == r && Periodic(r)
    ensures Reconciled(r, ev.kits)
    ensures Quiet(r, s.kits) ==> ev.kits == s.kits
    ensures Reconciled(r, s.kits) && !Quiet(r, s.kits) ==>
              |AppliedKits(s.kits, r.scan)| < |AppliedKits(ev.kits, r.scan)|
  {
    FirstRefreshReconciles(r, s.kits, s.nextGeneration, ev.kits, ev.nextGeneration);
    if Quiet(r, s.kits) {
      QuietChangesNothing(r, s.kits, s.nextGeneration, ev.kits, ev.nextGeneration);
    } else if Reconciled(r, s.kits) {
      ChangeAppliesMore(r, s.kits, s.nextGeneration, ev.kits, ev.nextGeneration);
      SubsetBound(AppliedKits(s.kits, r.scan), AppliedKits(ev.kits, r.scan));
    }
  }

  lemma {:induction false} ReconciledRunSettles(s: System, evs: seq<Event>, r: Refresh)
    requires Inv(s) && RunOf(s, evs) && RefreshesWith(evs, r) && r.scan.Valid() && Periodic(r) && Reconciled(r, s.kits)
    ensures Changes(s, evs, r) + |AppliedKits(s.kits, r.scan)| <= |r.scan.kits|
    decreases |evs|
  {
    if evs == [] {
      AppliedBound(s.kits, r.scan);
    } else {
      StepKeepsInv(s, evs[0]);
      if evs[0].RefreshTo? {
        RefreshAppliesMore(s, evs[0], r);
      } else {
        StepDrifts(s, evs[0]);
        DriftKeepsQuiet(r, s.kits, Apply(s, evs[0]).kits);
      }
      ReconciledRunSettles(Apply(s, evs[0]), evs[1..], r);
    }
  }

  /** Convergence among everything else that happens: with an unchanging scan, however starts, calls, failures,
      recoveries and shutdown come in between, no more refreshes change anything than there are scanned kits, and
      one. */
  lemma {:induction false} RefreshesSettle(s: System, evs: seq<Event>, r: Refresh)
    requires Inv(s) && RunOf(s, evs) && RefreshesWith(evs, r) && r.scan.Valid() && Periodic(r)
    ensures Changes(s, evs, r) <= |r.scan.kits| + 1
    decreases |evs|
  {
    if evs != [] {
      StepKeepsInv(s, evs[0]);
      if evs[0].RefreshTo? {
        RefreshAppliesMore(s, evs[0], r);
        ReconciledRunSettles(Apply(s, evs[0]), evs[1..], r);
      } else {
        RefreshesSettle(Apply(s, evs[0]), evs[1..], r);
      }
    }
  }

  /** And once a refresh finds nothing to change, no later one does. */
  lemma {:induction false} QuietStaysQuiet(s: System, evs: seq<Event>, r: Refresh)
    requires Inv(s) && RunOf(s, evs) && RefreshesWith(evs, r) && r.scan.Valid() && Periodic(r) && Quiet(r, s.kits)
    ensures Changes(s, evs, r) == 0 && Quiet(r, After(s, evs).kits) && SameIdentity(s.kits, After(s, evs).kits)
    decreases |evs|
  {
    if evs != [] {
      StepKeepsInv(s, evs[0]);
      if evs[0].RefreshTo? {
        RefreshAppliesMore(s, evs[0], r);
      } else {
        StepDrifts(s, evs[0]);
        DriftKeepsQuiet(r, s.kits, Apply(s, evs[0]).kits);
      }
      QuietStaysQuiet(Apply(s, evs[0]), evs[1..], r);
    }
  }

  // ---------------------------------------------------------------- reachable states

  ghost predicate IsRun(s0: System, evs: seq<Event>, s: System) {
    Initial(s0) && RunOf(s0, evs) && After(s0, evs) == s
  }

  ghost predicate Reachable(s: System) {
    exists s0, evs :: IsRun(s0, evs, s)
  }

  lemma InitialIsReachable(s: System)
    requires Initial(s)
    ensures Reachable(s)
  {
    assert IsRun(s, [], s);
  }

  lemma {:induction false} RunExtends(s: System, evs: seq<Event>, ev: Event)
    requires RunOf(s, evs) && Enabled(After(s, evs), ev)
    ensures RunOf(s, evs + [ev]) && After(s, evs + [ev]) == Apply(After(s, evs), ev)
    decreases |evs|
  {
    if evs == [] {
      assert [] + [ev] == [ev];
      assert RunOf(Apply(s, ev), []);
    } else {
      assert (evs + [ev])[1..] == evs[1..] + [ev];
      RunExtends(Apply(s, evs[0]), evs[1..], ev);
    }
  }

  lemma StepIsReachable(s: System, ev: Event)
    requires Reachable(s) && Enabled(s, ev)
    ensures Reachable(Apply(s, ev))
  {
    var s0, evs :| IsRun(s0, evs, s);
    RunExtends(s0, evs, ev);
    assert IsRun(s0, evs + [ev], Apply(s, ev));
  }

  lemma ReachableSatisfiesInv(s: System)
    requires Reachable(s)
    ensures Inv(s)
  {
    var s0, evs :| IsRun(s0, evs, s);
    RunKeepsInv(s0, evs);
  }
}
