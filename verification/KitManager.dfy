/**
 The kit manager itself: one method per critical section, updating the registry in place.
 */
module KitManagers {
  import opened Basics
  import opened KitLoader
  import opened KitRegistry
  import opened KitCalls

  datatype Fate = Added | Reloaded | Unchanged

  // ---------------------------------------------------------------- what a caller can tell from the registry

  /** Configured, and healthy or long enough past its last failure; a kit whose command was never found stays out. */
  predicate MayStart(e: Entry, cooled: bool) {
    !e.kit.environment.failed && !e.kit.auth.failed && (!e.unhealthy || (e.failedBefore && cooled))
  }

  /** Long enough after its last failure an unhealthy kit starts afresh; its settings are looked at first. */
  function Recovered(e: Entry, cooled: bool): Entry {
    if !e.kit.environment.failed && !e.kit.auth.failed && e.unhealthy && e.failedBefore && cooled
    then e.(unhealthy := false, failures := 0) else e
  }

  predicate HasLive(e: Entry, connections: seq<Connection>) {
    e.connection.Some? && e.connection.value < |connections| && connections[e.connection.value].alive
  }

  predicate IsInstalled(kits: Registry, name: string, connection: nat) {
    name in kits && kits[name].connection == Some(connection)
  }

  /** The kit was not removed or renewed since its generation was noted, and Portal is not shutting down. */
  predicate OwnsEntry(kits: Registry, name: string, generation: nat, stopping: bool) {
    name in kits && kits[name].generation == generation && !stopping
  }

  /** A call that succeeded is counted, and forgives earlier failures if it was on the installed connection. */
  predicate Succeeds(e: Entry, e': Entry, installed: bool) {
    e' == e.(unsentCalls := e.unsentCalls + 1, failures := if installed then 0 else e.failures)
  }

  /** One more failure in a row; the third one takes the kit out of service. */
  predicate FailsOnce(e: Entry, e': Entry) {
    && e' == e.(failures := e.failures + 1, failedBefore := true, unhealthy := e'.unhealthy, connection := None)
    && !e.unhealthy && e'.failures <= 3 && (e'.unhealthy <==> e'.failures == 3)
  }

  predicate OthersStay(kits: Registry, kits': Registry, name: string) {
    kits'.Keys == kits.Keys && forall n :: n in kits && n != name ==> kits'[n] == kits[n]
  }

  lemma EntryFacts(s: System, n: string)
    requires Reachable(s) && n in s.kits
    ensures Healthy(s.kits[n]) && SpawnedFromCurrent(s.kits[n], s.connections)
  {
    ReachableSatisfiesInv(s);
    assert EntriesInv(s.kits, s.connections);
  }

  lemma CallerFacts(s: System, c: nat)
    requires Reachable(s) && c in s.callers
    ensures CallerInv(s, c)
    ensures s.callers[c].HoldsGate() ==>
            forall d :: d in s.callers && d != c && s.callers[d].HoldsGate() ==> s.callers[d].gate != s.callers[c].gate
  {
    ReachableSatisfiesInv(s);
    assert CallersInv(s);
  }

  lemma BeginMeans(kits: Registry, connections: seq<Connection>, name: string, generation: nat, cooled: bool,
          slotFree: bool)
    requires name in kits ==> Healthy(kits[name]) && SpawnedFromCurrent(kits[name], connections)
    ensures var (kits', decision) := BeginStart(kits, connections, name, generation, cooled, slotFree);
            kits' == if name in kits && kits[name].generation == generation && !HasLive(kits[name], connections)
                     then kits[name := Recovered(kits[name], cooled).(connection :=
                            if decision.Spawn? then None else kits[name].connection)]
                     else kits
    ensures var (kits', decision) := BeginStart(kits, connections, name, generation, cooled, slotFree);
            && OthersStay(kits, kits', name)
            && (decision.Spawn? <==>
                  && name in kits && kits[name].generation == generation
                  && !LiveConnection(kits[name], connections) && MayStart(kits[name], cooled) && slotFree)
            && (decision.Spawn? ==>
                  var e := kits'[name];
                  && decision.kit == e.kit == kits[name].kit && e.generation == generation
                  && e.connection.None? && !e.unhealthy && e.failures < MAX_FAILURES)
            && (decision.Reuse? <==>
                name in kits && kits[name].generation == generation && LiveConnection(kits[name], connections))
            && (decision.Reuse? ==>
                  && name in kits && kits[name].connection == Some(decision.connection)
                  && decision.connection < |connections|
                  && kits' == kits && connections[decision.connection] == Connection(kits[name].kit, true))
  {}

  lemma BeginIsReachable(s: System, c: nat, cooled: bool, slotFree: bool)
    requires Reachable(s) && c in s.callers && s.callers[c].Starting?
    ensures Reachable(ApplyBegin(s, c, cooled, slotFree))
  {
    StepIsReachable(s, Begin(c, cooled, slotFree));
  }

  lemma FinishMeans(s: System, c: nat, outcome: SpawnOutcome)
    requires c in s.callers && s.callers[c].Spawning? && CallerInv(s, c)
    requires s.callers[c].name in s.kits ==> Healthy(s.kits[s.callers[c].name])
    ensures var k := s.callers[c];
            var kits := FinishStart(s.kits, k.name, k.generation, s.stopping, outcome, |s.connections|);
            && OthersStay(s.kits, kits, k.name)
            && if outcome.SpawnCancelled? || !StillCurrent(s.kits, k.name, k.generation, s.stopping) then kits == s.kits
               else
                 && s.kits[k.name].connection.None? && s.kits[k.name].kit == k.kit
                 && if outcome.Spawned? then kits[k.name] == s.kits[k.name].(connection := Some(|s.connections|))
                    else FailsOnce(s.kits[k.name], kits[k.name])
  {}

  lemma CloneIsReachable(s: System, c: nat)
    requires Reachable(s) && c in s.callers && s.callers[c].Resolved?
    ensures Reachable(s.Leave(c)) && Reachable(Apply(s, CloneGate(c)))
  {
    StepIsReachable(s, Abandon(c));
    StepIsReachable(s, CloneGate(c));
  }

  lemma FinishIsReachable(s: System, c: nat, outcome: SpawnOutcome)
    requires Reachable(s) && c in s.callers && s.callers[c].Spawning?
    ensures Reachable(ApplyFinish(s, c, outcome))
  {
    StepIsReachable(s, Finish(c, outcome));
  }

  lemma CompleteMeans(s: System, c: nat, outcome: CallOutcome)
    requires Reachable(s) && c in s.callers && s.callers[c].Calling?
    ensures var k, kits := s.callers[c], FinishCall(s.kits, s.callers[c].name, s.callers[c].connection, outcome);
            && Reachable(ApplyComplete(s, c, outcome)) && OthersStay(s.kits, kits, k.name)
            && k.connection < |s.connections|
            && if outcome.Broken? && Current(s.kits, k.name, k.connection)
               then k.connection !in s.blamed && FailsOnce(s.kits[k.name], kits[k.name])
               else !outcome.Succeeded? ==> kits == s.kits
  {
    StepIsReachable(s, Complete(c, outcome));
    ReachableSatisfiesInv(s);
    assert CallerInv(s, c);
    var k := s.callers[c];
    if Current(s.kits, k.name, k.connection) {
      assert Healthy(s.kits[k.name]);
      assert BlameInv(s.kits, s.connections, s.blamed);
    }
  }

  /** No later one of the first `n` manifests has the name of this one. */
  predicate IsLast(loaded: seq<Kit>, i: int, n: nat) {
    0 <= i < n <= |loaded| && forall j :: i < j < n ==> loaded[j].name != loaded[i].name
  }

  lemma LastNext(loaded: seq<Kit>, n: nat)
    requires n < |loaded|
    ensures forall i ::
              IsLast(loaded, i, n + 1) ==> i == n || (IsLast(loaded, i, n) && loaded[i].name != loaded[n].name)
  {}

  method LoadAll(loaded: seq<Kit>, installed: set<string>) returns (states: Registry)
    ensures Numbered(states, |loaded|) && states.Keys == set k | k in loaded :: k.name
    ensures forall n :: n in states ==> states[n].kit in loaded && states[n].kit.name == n
    ensures forall n :: n in states ==> states[n] == FreshEntry(states[n].kit, states[n].generation, 0, installed)
    ensures forall i :: IsLast(loaded, i, |loaded|) ==>
                        loaded[i].name in states && states[loaded[i].name].kit == loaded[i]
  {
    states := map[];
    for i := 0 to |loaded|
      invariant states.Keys == set k | k in loaded[..i] :: k.name
      invariant forall n :: n in states ==> states[n].kit in loaded && states[n].kit.name == n
      invariant forall n :: n in states ==> states[n] == FreshEntry(states[n].kit, states[n].generation, 0, installed)
      invariant forall m :: IsLast(loaded, m, i) ==> loaded[m].name in states && states[loaded[m].name].kit == loaded[m]
      invariant Numbered(states, i)
    {
      assert loaded[..i + 1] == loaded[..i] + [loaded[i]];
      LastNext(loaded, i);
      states := states[loaded[i].name := FreshEntry(loaded[i], i, 0, installed)];
    }
    assert loaded[..|loaded|] == loaded;
  }

  class KitManager {
    var kits: Registry
    var nextGeneration: nat
    var connections: seq<Connection>
    var callers: map<nat, Caller>
    var stopping: bool
    ghost var blamed: seq<nat>

    ghost function State(): System
      reads this
    {
      System(kits, nextGeneration, connections, callers, stopping, blamed)
    }

    ghost predicate Valid()
      reads this
    {
      Reachable(State())
    }

    /** Later manifests replace earlier ones of the same name; the loader hands over none that clash. */
    constructor (loaded: seq<Kit>, installed: set<string>)
      ensures Scan(loaded, []).Valid() ==> Valid()
      ensures !stopping && connections == [] && callers == map[] && blamed == []
      ensures kits.Keys == set k | k in loaded :: k.name
      ensures forall n :: n in kits ==> kits[n].kit in loaded && kits[n].kit.name == n
      ensures forall n :: n in kits ==> StartedOver(kits[n], kits[n].kit, 0, installed)
      ensures forall i :: IsLast(loaded, i, |loaded|) ==>
                          loaded[i].name in kits && kits[loaded[i].name].kit == loaded[i]
    {
      var states := LoadAll(loaded, installed);
      kits, nextGeneration, connections, stopping := states, |loaded|, [], false;
      callers, blamed := map[], [];
      new;
      if Scan(loaded, []).Valid() {
        LoadedAreExclusive(loaded, kits);
        InitialIsReachable(State());
      }
    }

    /** Does the candidate clash with any owner this refresh cannot displace? */
    method ClashesWithAny(candidate: Kit, owners: map<string, Kit>, target: Option<string>) returns (clashed: bool)
      ensures clashed <==> exists n :: n in owners && Clashes(candidate, owners[n], target)
    {
      var pending := owners.Keys;
      while pending != {}
        invariant pending <= owners.Keys
        invariant forall n :: n in owners && n !in pending ==> !Clashes(candidate, owners[n], target)
        decreases |pending|
      {
        var n :| n in pending;
        if Clashes(candidate, owners[n], target) {
          return true;
        }
        pending := pending - {n};
      }
      return false;
    }

    method FindRejected(r: Refresh) returns (rejected: set<string>)
      ensures rejected == r.RejectedDirs(kits)
    {
      var owners := map n | n in kits && r.Blocks(kits[n].kit) :: kits[n].kit;
      rejected := {};
      for i := 0 to |r.scan.kits|
        invariant forall d :: d in rejected <==> RejectedBefore(r, kits, i, d)
      {
        var candidate := r.scan.kits[i];
        ghost var before := rejected;
        if Selects(r.target, candidate.name) {
          var clashed := ClashesWithAny(candidate, owners, r.target);
          RejectsMeaning(r, kits, owners, candidate);
          if clashed {
            rejected := rejected + {candidate.dir};
          }
        }
        RejectedNext(r, kits, i);
      }
      RejectedAll(r, kits);
    }

    /** Insert a new kit, or reset the entry of a changed one under a fresh generation. */
    method AdoptKit(r: Refresh, kit: Kit) returns (fate: Fate)
      modifies this`kits, this`nextGeneration
      ensures (kits, nextGeneration) == AdoptOne(r, old(kits), kit, old(nextGeneration))
      ensures fate.Added? <==> kit.name !in old(kits)
      ensures fate.Reloaded? <==> kit.name in old(kits) && r.NeedsReload(old(kits)[kit.name], kit)
    {
      fate := Unchanged;
      if kit.name in kits {
        if r.NeedsReload(kits[kit.name], kit) {
          kits := kits[kit.name := FreshEntry(kit, nextGeneration, kits[kit.name].unsentCalls, r.installed)];
          nextGeneration := nextGeneration + 1;
          fate := Reloaded;
        }
      } else {
        kits := kits[kit.name := FreshEntry(kit, nextGeneration, 0, r.installed)];
        nextGeneration := nextGeneration + 1;
        fate := Added;
      }
    }

    /** Adopt the surviving candidates one by one; `seen` are the names that keep their entries. */
    method AdoptAll(r: Refresh, rejected: set<string>)
      returns (added: set<string>, reloaded: set<string>, seen: set<string>)
      requires Numbered(kits, nextGeneration) && DistinctNames(r.scan)
      modifies this`kits, this`nextGeneration
      ensures AdoptedUpTo(r, rejected, old(kits), old(nextGeneration), |r.scan.kits|, kits, nextGeneration)
      ensures Lists(r, rejected, old(kits), |r.scan.kits|, added, reloaded, seen)
    {
      ghost var was := kits;
      added, reloaded, seen := {}, {}, {};
      for i := 0 to |r.scan.kits|
        invariant AdoptedUpTo(r, rejected, was, old(nextGeneration), i, kits, nextGeneration)
        invariant Lists(r, rejected, was, i, added, reloaded, seen)
      {
        var kit := r.scan.kits[i];
        AdoptNext(r, rejected, was, old(nextGeneration), i, kits, nextGeneration);
        ListNext(r, rejected, was, i, added, reloaded, seen);
        if kit.dir !in rejected && kit.name !in seen {
          seen := seen + {kit.name};
          if Selects(r.target, kit.name) {
            var fate := AdoptKit(r, kit);
            match fate
            case Added => added := added + {kit.name};
            case Reloaded => reloaded := reloaded + {kit.name};
            case Unchanged =>
          }
        }
      }
    }

    /** One refresh: find the rejected candidates, adopt the others, then remove what no directory backs any more. */
    method RefreshKitsTarget(r: Refresh) returns (report: Report)
      requires Valid() && r.scan.Valid()
      modifies this`kits, this`nextGeneration
      ensures Valid()
      ensures stopping ==> kits == old(kits) && nextGeneration == old(nextGeneration) && !report.Changed()
      ensures !stopping ==>
                r.Yields(old(kits), old(nextGeneration), kits, nextGeneration) && r.Reports(old(kits), report)
      ensures !stopping ==> RefreshMeans(r, old(kits), old(nextGeneration), kits, nextGeneration, report)
      ensures !stopping ==>
                forall n :: n in report.retainedInvalid <==> n in kits && Unusable(r, old(kits), kits[n].kit.dir)
    {
      report := Report({}, {}, {}, {});
      if stopping {
        return;
      }
      ghost var before := State();
      ReachableSatisfiesInv(before);
      ValidNamesDiffer(r.scan);
      var rejected := FindRejected(r);
      var added, reloaded, seen := AdoptAll(r, rejected);
      var removed := Unbacked(r, kits, seen, rejected);
      report := Report(added, reloaded, removed, {});
      RefreshOutcome(r, rejected, old(kits), old(nextGeneration), kits, nextGeneration, report, seen);
      kits := Without(kits, removed);
      StepIsReachable(before, RefreshTo(r, kits, nextGeneration));
      report := report.(retainedInvalid := RetainedInvalid(r, kits, rejected));
      YieldMeans(r, before.kits, before.nextGeneration, kits, nextGeneration, report);
      forall n | n in kits ensures n in report.retainedInvalid <==> Unusable(r, before.kits, kits[n].kit.dir) {
        HeldMeansUnusable(r, before.kits, kits[n].kit.dir);
      }
    }

    // -------------------------------------------------------------- starts, calls and health

    method RecoverKit(name: string, cooled: bool)
      requires name in kits
      modifies this`kits
      ensures kits == old(kits)[name := RecoverIfCooledDown(old(kits)[name], cooled)]
    {
      var state := kits[name];
      if !state.unhealthy {
        return;
      }
      if state.failedBefore && cooled {
        state := state.(unhealthy := false);
        state := state.(failures := 0);
        kits := kits[name := state];
      }
    }

    method CheckStart(name: string, cooled: bool) returns (startable: bool)
      requires name in kits
      modifies this`kits
      ensures (kits, startable) ==
              (old(kits)[name := CheckStartable(old(kits)[name], cooled).0], CheckStartable(old(kits)[name], cooled).1)
    {
      if kits[name].kit.Misconfigured() {
        assert kits == kits[name := kits[name]];
        return false;
      }
      RecoverKit(name, cooled);
      if kits[name].unhealthy {
        return false;
      }
      if kits[name].failures >= MAX_FAILURES {
        kits := kits[name := kits[name].(unhealthy := true)];
        assert kits == old(kits)[name := kits[name]];
        return false;
      }
      return true;
    }

    /** A call notes the generation it found, and later takes a copy of the entry's start lock, whoever owns it by
        then. */
    method ResolveCall(c: nat, name: string) returns (found: bool)
      requires Valid() && c !in callers
      modifies this`callers
      ensures Valid() && (found <==> name in kits)
      ensures callers == if found then old(callers)[c := Resolved(name, kits[name].generation)] else old(callers)
    {
      found := name in kits;
      if found {
        StepIsReachable(State(), Resolve(c, name));
        callers := callers[c := Resolved(name, kits[name].generation)];
      }
    }

    /** `sawStopping` is what the stop flag said at the beginning; it may have gone up since. */
    method CopyStartLock(c: nat, sawStopping: bool) returns (found: bool)
      requires Valid() && c in callers && callers[c].Resolved? && (sawStopping ==> stopping)
      modifies this`callers
      ensures Valid() && (found <==> !sawStopping && old(callers)[c].name in kits)
      ensures var k := old(callers)[c];
              callers == if found then old(callers)[c := Gated(k.name, k.generation, kits[k.name].generation)]
                else old(callers) - {c}
    {
      CloneIsReachable(State(), c);
      var k := callers[c];
      found := !sawStopping && k.name in kits;
      callers := if found then callers[c := Gated(k.name, k.generation, kits[k.name].generation)] else callers - {c};
    }

    method TakeStartLock(c: nat)
      requires Valid() && c in callers && callers[c].Gated? && State().GateFree(callers[c].gate)
      modifies this`callers
      ensures Valid() && c in callers
      ensures callers
              == old(callers)[c := Starting(old(callers)[c].name, old(callers)[c].generation, old(callers)[c].gate)]
      ensures forall d :: d in callers && d != c && callers[d].HoldsGate() ==> callers[d].gate != callers[c].gate
    {
      StepIsReachable(State(), LockGate(c));
      callers := callers[c := Starting(callers[c].name, callers[c].generation, callers[c].gate)];
    }

    /** The first critical section of a start, run while holding the entry's start lock. A process is spawned exactly
        for a kit that is still current, may start, has no live connection and a free slot; while it starts the entry is
        healthy and without a connection, and nobody else is starting this kit. */
    method BeginConnection(c: nat, cooled: bool, slotFree: bool) returns (decision: StartDecision)
      requires Valid() && c in callers && callers[c].Starting?
      modifies this`kits, this`callers
      ensures Valid() && OthersStay(old(kits), kits, old(callers)[c].name)
      ensures var k := old(callers)[c];
              decision.Spawn? <==>
              && k.name in old(kits) && old(kits)[k.name].generation == k.generation && slotFree
              && !HasLive(old(kits)[k.name], connections) && MayStart(old(kits)[k.name], cooled)
      ensures decision.Spawn? ==>
              var k := old(callers)[c];
              && k.name in kits && kits[k.name].generation == k.generation && kits[k.name].kit == decision.kit
              && kits[k.name].connection.None? && !kits[k.name].unhealthy
              && callers == old(callers)[c := Spawning(k.name, k.generation, k.gate, decision.kit)]
              && forall d :: d in callers && d != c && callers[d].HoldsGate() ==> callers[d].gate != k.gate
      ensures var k := old(callers)[c];
              decision.Reuse? <==>
              k.name in old(kits) && old(kits)[k.name].generation == k.generation
                && HasLive(old(kits)[k.name], connections)
      ensures decision.Reuse? ==>
              var k := old(callers)[c];
              && k.name in kits && kits == old(kits) && kits[k.name].connection == Some(decision.connection)
              && decision.connection < |connections|
              && connections[decision.connection] == Connection(kits[k.name].kit, true)
              && callers == old(callers)[c := Calling(k.name, decision.connection)]
      ensures decision.Refuse? ==> callers == old(callers) - {c}
      ensures var k := old(callers)[c];
              kits == if k.name in old(kits) && old(kits)[k.name].generation == k.generation
                         && !HasLive(old(kits)[k.name], connections)
                      then old(kits)[k.name := Recovered(old(kits)[k.name], cooled).(connection :=
                             if decision.Spawn? then None else old(kits)[k.name].connection)]
                      else old(kits)
    {
      var k := callers[c];
      ghost var before := State();
      BeginIsReachable(before, c, cooled, slotFree);
      CallerFacts(State(), c);
      if k.name in kits {
        EntryFacts(State(), k.name);
      }
      BeginMeans(kits, connections, k.name, k.generation, cooled, slotFree);
      decision := DecideStart(k.name, k.generation, cooled, slotFree);
      match decision
      case Spawn(kit) => callers := callers[c := Spawning(k.name, k.generation, k.gate, kit)];
      case Reuse(connection) => callers := callers[c := Calling(k.name, connection)];
      case Refuse => callers := callers - {c};
      assert State() == ApplyBegin(before, c, cooled, slotFree);
    }

    method DecideStart(name: string, generation: nat, cooled: bool, slotFree: bool) returns (decision: StartDecision)
      modifies this`kits
      ensures (kits, decision) == BeginStart(old(kits), connections, name, generation, cooled, slotFree)
    {
      if name !in kits || kits[name].generation != generation {
        return Refuse;
      }
      if LiveConnection(kits[name], connections) {
        return Reuse(kits[name].connection.value);
      }
      var startable := CheckStart(name, cooled);
      if !startable || !slotFree {
        return Refuse;
      }
      kits := kits[name := kits[name].(connection := None)];
      assert kits == old(kits)[name := kits[name]];
      return Spawn(kits[name].kit);
    }

    method NoteFailure(name: string)
      requires name in kits
      modifies this`kits
      ensures kits == old(kits)[name := RecordFailure(old(kits)[name])]
    {
      var state := kits[name];
      state := state.(failures := if state.failures < 255 then state.failures + 1 else 255, failedBefore := true);
      if state.failures >= MAX_FAILURES {
        state := state.(unhealthy := true);
      }
      kits := kits[name := state];
    }

    /** The second critical section. The process is installed, or its failure counted, exactly if its generation still
        owns the entry and Portal is not stopping; it never replaces another one and is always the current kit's. */
    method FinishConnection(c: nat, outcome: SpawnOutcome) returns (installed: Option<nat>)
      requires Valid() && c in callers && callers[c].Spawning?
      modifies this`kits, this`connections, this`callers
      ensures Valid() && OthersStay(old(kits), kits, old(callers)[c].name)
      ensures var k := old(callers)[c];
              installed.Some? <==> outcome.Spawned? && OwnsEntry(old(kits), k.name, k.generation, stopping)
      ensures installed.Some? ==>
              var k := old(callers)[c];
              && k.name in kits && old(kits)[k.name].connection.None?
              && kits[k.name] == old(kits)[k.name].(connection := installed)
              && connections == old(connections) + [Connection(kits[k.name].kit, true)]
              && installed == Some(|old(connections)|)
              && callers == old(callers)[c := Calling(k.name, installed.value)]
      ensures installed.None? ==> connections == old(connections) && callers == old(callers) - {c}
      ensures var k := old(callers)[c];
              installed.None? ==>
              if outcome.SpawnFailed? && OwnsEntry(old(kits), k.name, k.generation, stopping)
              then k.name in kits && FailsOnce(old(kits)[k.name], kits[k.name]) else kits == old(kits)
    {
      var k := callers[c];
      ghost var before := State();
      FinishIsReachable(before, c, outcome);
      CallerFacts(State(), c);
      if k.name in kits {
        EntryFacts(State(), k.name);
      }
      FinishMeans(State(), c, outcome);
      installed := SettleStart(k.name, k.generation, k.kit, outcome);
      callers := if installed.Some? then callers[c := Calling(k.name, installed.value)] else callers - {c};
      assert State() == ApplyFinish(before, c, outcome);
    }

    method SettleStart(name: string, generation: nat, kit: Kit, outcome: SpawnOutcome) returns (installed: Option<nat>)
      modifies this`kits, this`connections
      ensures kits == FinishStart(old(kits), name, generation, stopping, outcome, |old(connections)|)
      ensures installed ==
              if outcome.Spawned? && StillCurrent(old(kits), name, generation, stopping) then Some(|old(connections)|)
                  else None
      ensures connections == old(connections) + if installed.Some? then [Connection(kit, true)] else []
    {
      installed := None;
      if outcome.SpawnCancelled? || name !in kits || kits[name].generation != generation || stopping {
        return;
      }
      if outcome.Spawned? {
        installed := Some(|connections|);
        kits := kits[name := kits[name].(connection := installed)];
        connections := connections + [Connection(kit, true)];
      } else {
        NoteFailure(name);
      }
    }

    /** A call's whole way to its connection, when nothing comes in between: it gets one exactly when nothing is
        stopping and the kit has a live one, or may start and does; what it gets is installed, alive and runs the
        current kit. */
    method ConnectionFor(c: nat, name: string, cooled: bool, slotFree: bool, outcome: SpawnOutcome)
      returns (connection: Option<nat>)
      requires Valid() && c !in callers && (name in kits ==> State().GateFree(kits[name].generation))
      modifies this`kits, this`connections, this`callers
      ensures Valid() && kits.Keys == old(kits.Keys)
      ensures connection.Some? <==>
              && !stopping && name in old(kits)
              && (HasLive(old(kits)[name], old(connections))
                  || (MayStart(old(kits)[name], cooled) && slotFree && outcome.Spawned?))
      ensures connection.Some? ==>
              && name in kits && kits[name].connection == connection && connection.value < |connections|
              && connections[connection.value] == Connection(kits[name].kit, true)
              && callers == old(callers)[c := Calling(name, connection.value)]
      ensures connection.None? ==> callers == old(callers)
    {
      connection := None;
      var found := EnterStart(c, name);
      if found {
        connection := Connect(c, cooled, slotFree, outcome);
      }
    }

    method EnterStart(c: nat, name: string) returns (found: bool)
      requires Valid() && c !in callers && (name in kits ==> State().GateFree(kits[name].generation))
      modifies this`callers
      ensures Valid() && (found <==> !stopping && name in kits)
      ensures callers == if found then old(callers)[c := Starting(name, kits[name].generation, kits[name].generation)]
                else old(callers)
    {
      found := ResolveCall(c, name);
      if found {
        found := CopyStartLock(c, stopping);
      }
      if found {
        TakeStartLock(c);
      }
    }

    method Connect(c: nat, cooled: bool, slotFree: bool, outcome: SpawnOutcome) returns (connection: Option<nat>)
      requires Valid() && c in callers && callers[c].Starting?
      requires callers[c].name in kits && kits[callers[c].name].generation == callers[c].generation
      modifies this`kits, this`connections, this`callers
      ensures Valid() && kits.Keys == old(kits.Keys)
      ensures var e := old(kits)[old(callers)[c].name];
              connection.Some? <==>
              || HasLive(e, old(connections))
              || (MayStart(e, cooled) && slotFree && outcome.Spawned? && !stopping)
      ensures connection.Some? ==>
              var name := old(callers)[c].name;
              && name in kits && kits[name].connection == connection && connection.value < |connections|
              && connections[connection.value] == Connection(kits[name].kit, true)
              && callers == old(callers)[c := Calling(name, connection.value)]
      ensures connection.None? ==> callers == old(callers) - {c}
    {
      connection := None;
      var decision := BeginConnection(c, cooled, slotFree);
      match decision
      case Reuse(live) => connection := Some(live);
      case Spawn(_) => connection := FinishConnection(c, outcome);
      case Refuse =>
    }

    /** After a call, only a broken one on the installed connection counts against the kit: the connection is closed,
        and blamed for the first and only time. Every other failure leaves the registry as it is. */
    method FinishToolCall(c: nat, outcome: CallOutcome)
      requires Valid() && c in callers && callers[c].Calling?
      modifies this`kits, this`connections, this`callers, this`blamed
      ensures Valid() && callers == old(callers) - {c} && OthersStay(old(kits), kits, old(callers)[c].name)
      ensures old(callers)[c].connection < |old(connections)|
      ensures var k := old(callers)[c];
              if outcome.Broken? && IsInstalled(old(kits), k.name, k.connection) then
                && k.name in kits && FailsOnce(old(kits)[k.name], kits[k.name])
                && connections == old(connections)[k.connection := old(connections)[k.connection].(alive := false)]
                && k.connection !in old(blamed) && blamed == old(blamed) + [k.connection]
              else
                && connections == old(connections) && blamed == old(blamed)
                && (!outcome.Succeeded? ==> kits == old(kits))
      ensures var k := old(callers)[c];
              outcome.Succeeded? ==>
              if k.name in old(kits) then
                k.name in kits
                  && Succeeds(old(kits)[k.name], kits[k.name], IsInstalled(old(kits), k.name, k.connection))
              else kits == old(kits)
    {
      CompleteMeans(State(), c, outcome);
      var k := callers[c];
      var broke := RecordCall(k.name, k.connection, outcome);
      callers := callers - {c};
      if broke {
        connections := Kill(connections, k.connection);
        blamed := blamed + [k.connection];
      }
    }

    method RecordCall(name: string, connection: nat, outcome: CallOutcome) returns (broke: bool)
      modifies this`kits
      ensures kits == FinishCall(old(kits), name, connection, outcome)
      ensures broke <==> outcome.Broken? && Current(old(kits), name, connection)
    {
      if outcome.Rejected? || outcome.TimedOut? || outcome.RemoteError? {
        return false;
      }
      if !Current(kits, name, connection) {
        if outcome.Succeeded? && name in kits {
          kits := kits[name := kits[name].(unsentCalls := kits[name].unsentCalls + 1)];
        }
        return false;
      }
      if outcome.Succeeded? {
        var state := kits[name].(failures := 0);
        kits := kits[name := state.(unsentCalls := state.unsentCalls + 1)];
        return false;
      }
      kits := kits[name := kits[name].(connection := None)];
      NoteFailure(name);
      return true;
    }

    /** Afterwards no connection is installed or alive, and as long as Portal runs none will be. */
    method Shutdown()
      requires Valid()
      modifies this`stopping, this`kits, this`connections
      ensures Valid() && Down(State()) && kits.Keys == old(kits.Keys)
    {
      StepIsReachable(State(), Stop);
      stopping := true;
      ClearConnections();
    }

    method ClearConnections()
      requires Valid() && stopping
      modifies this`kits, this`connections
      ensures Valid() && Down(State()) && kits.Keys == old(kits.Keys)
    {
      StepIsReachable(State(), Clear);
      kits := map n | n in kits :: kits[n].(connection := None);
      connections := KillAll(connections);
    }
  }

  lemma LoadedAreExclusive(loaded: seq<Kit>, kits: Registry)
    requires Scan(loaded, []).Valid() && forall n :: n in kits ==> kits[n].kit in loaded && kits[n].kit.name == n
    ensures Exclusive(kits)
  {}

  function Unbacked(r: Refresh, kits: Registry, seen: set<string>, rejected: set<string>): set<string> {
    set n | n in kits && Selects(r.target, n) && n !in seen && kits[n].kit.dir !in r.scan.invalidDirs
      && kits[n].kit.dir !in rejected
  }

  function Without(kits: Registry, removed: set<string>): Registry {
    map n | n in kits && n !in removed :: kits[n]
  }

  function RetainedInvalid(r: Refresh, kits: Registry, rejected: set<string>): set<string> {
    set n | n in kits && (kits[n].kit.dir in r.scan.invalidDirs || kits[n].kit.dir in rejected)
  }

  // ---------------------------------------------------------------- the conflict loop

  ghost predicate RejectedBefore(r: Refresh, kits: Registry, i: nat, d: string)
    requires i <= |r.scan.kits|
  {
    exists j :: 0 <= j < i && r.Rejects(kits, r.scan.kits[j]) && r.scan.kits[j].dir == d
  }

  lemma RejectsMeaning(r: Refresh, kits: Registry, owners: map<string, Kit>, candidate: Kit)
    requires owners == map n | n in kits && r.Blocks(kits[n].kit) :: kits[n].kit
    requires Selects(r.target, candidate.name)
    ensures r.Rejects(kits, candidate) <==> exists n :: n in owners && Clashes(candidate, owners[n], r.target)
  {
    if r.Rejects(kits, candidate) {
      var n :| n in kits && r.Blocks(kits[n].kit) && Clashes(candidate, kits[n].kit, r.target);
      assert n in owners;
    }
  }

  lemma RejectedNext(r: Refresh, kits: Registry, i: nat)
    requires i < |r.scan.kits|
    ensures forall d :: RejectedBefore(r, kits, i + 1, d) <==>
              RejectedBefore(r, kits, i, d) || (r.Rejects(kits, r.scan.kits[i]) && d == r.scan.kits[i].dir)
  {
    forall d ensures RejectedBefore(r, kits, i + 1, d) <==>
              RejectedBefore(r, kits, i, d) || (r.Rejects(kits, r.scan.kits[i]) && d == r.scan.kits[i].dir) {
      if r.Rejects(kits, r.scan.kits[i]) && d == r.scan.kits[i].dir {
        assert RejectedBefore(r, kits, i + 1, d);
      }
    }
  }

  lemma RejectedAll(r: Refresh, kits: Registry)
    ensures forall d :: RejectedBefore(r, kits, |r.scan.kits|, d) <==> d in r.RejectedDirs(kits)
  {
    forall d | d in r.RejectedDirs(kits) ensures RejectedBefore(r, kits, |r.scan.kits|, d) {
      var k :| k in r.scan.kits && r.Rejects(kits, k) && k.dir == d;
      var j :| 0 <= j < |r.scan.kits| && r.scan.kits[j] == k;
    }
  }

  // ---------------------------------------------------------------- the adoption loop

  ghost predicate DistinctNames(scan: Scan) {
    forall i, j :: 0 <= i < j < |scan.kits| ==> scan.kits[i].name != scan.kits[j].name
  }

  lemma ValidNamesDiffer(scan: Scan)
    requires scan.Valid()
    ensures DistinctNames(scan)
  {
  }

  predicate Survives(rejected: set<string>, k: Kit) {
    k.dir !in rejected
  }

  predicate Enters(r: Refresh, rejected: set<string>, k: Kit) {
    Survives(rejected, k) && Selects(r.target, k.name)
  }

  ghost predicate EntersBefore(r: Refresh, rejected: set<string>, i: nat, n: string)
    requires i <= |r.scan.kits|
  {
    exists j :: 0 <= j < i && Enters(r, rejected, r.scan.kits[j]) && r.scan.kits[j].name == n
  }

  ghost predicate SurvivesBefore(r: Refresh, rejected: set<string>, i: nat, n: string)
    requires i <= |r.scan.kits|
  {
    exists j :: 0 <= j < i && Survives(rejected, r.scan.kits[j]) && r.scan.kits[j].name == n
  }

  ghost predicate RenewsBefore(r: Refresh, rejected: set<string>, was: Registry, i: nat, n: string)
    requires i <= |r.scan.kits|
  {
    exists j :: 0 <= j < i && Enters(r, rejected, r.scan.kits[j]) && r.scan.kits[j].name == n
      && r.Renews(was, r.scan.kits[j])
  }

  ghost predicate Populated(r: Refresh, rejected: set<string>, was: Registry, i: nat, kits: Registry)
    requires i <= |r.scan.kits|
  {
    && (forall n :: n in kits <==> n in was || EntersBefore(r, rejected, i, n))
    && (forall n :: n in was && !EntersBefore(r, rejected, i, n) ==> kits[n] == was[n])
  }

  ghost predicate Renewed(r: Refresh, rejected: set<string>, was: Registry, next0: nat, i: nat, kits: Registry,
          next: nat)
    requires i <= |r.scan.kits|
  {
    forall j :: 0 <= j < i && Enters(r, rejected, r.scan.kits[j]) ==>
      && r.scan.kits[j].name in kits
      && r.AdoptedEntry(was, r.scan.kits[j], kits[r.scan.kits[j].name], next0, next)
  }

  /** The registry after `i` candidates, relative to the one the loop started from. */
  ghost predicate AdoptedUpTo(r: Refresh, rejected: set<string>, was: Registry, next0: nat, i: nat, kits: Registry,
          next: nat)
    requires i <= |r.scan.kits|
  {
    && next0 <= next
    && Populated(r, rejected, was, i, kits)
    && Renewed(r, rejected, was, next0, i, kits, next)
    && Numbered(kits, next)
  }

  ghost predicate Lists(r: Refresh, rejected: set<string>, was: Registry, i: nat, added: set<string>,
          reloaded: set<string>, seen: set<string>)
    requires i <= |r.scan.kits|
  {
    && (forall n :: n in seen <==> SurvivesBefore(r, rejected, i, n))
    && (forall n :: n in added <==> n !in was && EntersBefore(r, rejected, i, n))
    && (forall n :: n in reloaded <==> n in was && RenewsBefore(r, rejected, was, i, n))
  }

  lemma NamesAreFresh(r: Refresh, rejected: set<string>, i: nat)
    requires DistinctNames(r.scan) && i < |r.scan.kits|
    ensures !SurvivesBefore(r, rejected, i, r.scan.kits[i].name)
    ensures !EntersBefore(r, rejected, i, r.scan.kits[i].name)
    ensures forall n :: EntersBefore(r, rejected, i + 1, n) <==>
              EntersBefore(r, rejected, i, n) || (Enters(r, rejected, r.scan.kits[i]) && n == r.scan.kits[i].name)
    ensures forall n :: SurvivesBefore(r, rejected, i + 1, n) <==>
              SurvivesBefore(r, rejected, i, n) || (Survives(rejected, r.scan.kits[i]) && n == r.scan.kits[i].name)
  {
    forall j | 0 <= j < i ensures r.scan.kits[j].name != r.scan.kits[i].name {}
  }

  lemma ListNext(r: Refresh, rejected: set<string>, was: Registry, i: nat, added: set<string>, reloaded: set<string>,
          seen: set<string>)
    requires DistinctNames(r.scan) && i < |r.scan.kits| && Lists(r, rejected, was, i, added, reloaded, seen)
    ensures var k := r.scan.kits[i];
            && k.name !in seen
            && Lists(r, rejected, was, i + 1,
                 if Enters(r, rejected, k) && k.name !in was then added + {k.name} else added,
                 if Enters(r, rejected, k) && k.name in was && r.Renews(was, k) then reloaded + {k.name} else reloaded,
                 if Survives(rejected, k) then seen + {k.name} else seen)
  {
    NamesAreFresh(r, rejected, i);
    var k := r.scan.kits[i];
    forall n ensures RenewsBefore(r, rejected, was, i + 1, n) <==>
      RenewsBefore(r, rejected, was, i, n) || (Enters(r, rejected, k) && n == k.name && r.Renews(was, k)) {}
  }

  ghost function AdoptOne(r: Refresh, kits: Registry, k: Kit, next: nat): (Registry, nat) {
    if k.name in kits && !r.NeedsReload(kits[k.name], k) then (kits, next)
    else (kits[k.name := FreshEntry(k, next, if k.name in kits then kits[k.name].unsentCalls else 0, r.installed)],
        next + 1)
  }

  ghost function AdoptIfEntering(r: Refresh, rejected: set<string>, kits: Registry, k: Kit,
          next: nat): (Registry, nat) {
    if Enters(r, rejected, k) then AdoptOne(r, kits, k, next) else (kits, next)
  }

  lemma PopulatedNext(r: Refresh, rejected: set<string>, was: Registry, i: nat, kits: Registry, next: nat)
    requires DistinctNames(r.scan) && i < |r.scan.kits| && Populated(r, rejected, was, i, kits)
    ensures Populated(r, rejected, was, i + 1, AdoptIfEntering(r, rejected, kits, r.scan.kits[i], next).0)
    ensures var n := r.scan.kits[i].name; (n in kits <==> n in was) && (n in kits ==> kits[n] == was[n])
  {
    NamesAreFresh(r, rejected, i);
  }

  lemma RenewedNext(r: Refresh, rejected: set<string>, was: Registry, next0: nat, i: nat, kits: Registry, next: nat)
    requires DistinctNames(r.scan) && i < |r.scan.kits| && next0 <= next
             && Renewed(r, rejected, was, next0, i, kits, next)
    requires var n := r.scan.kits[i].name; (n in kits <==> n in was) && (n in kits ==> kits[n] == was[n])
    ensures var (kits', next') := AdoptIfEntering(r, rejected, kits, r.scan.kits[i], next);
            Renewed(r, rejected, was, next0, i + 1, kits', next')
  {
    var k := r.scan.kits[i];
    var (kits', next') := AdoptIfEntering(r, rejected, kits, k, next);
    forall j | 0 <= j < i + 1 && Enters(r, rejected, r.scan.kits[j])
      ensures r.scan.kits[j].name in kits'
              && r.AdoptedEntry(was, r.scan.kits[j], kits'[r.scan.kits[j].name], next0, next')
    {
      if j < i {
        assert r.scan.kits[j].name != k.name;
      }
    }
  }

  lemma NumberedNext(r: Refresh, rejected: set<string>, kits: Registry, k: Kit, next: nat)
    requires Numbered(kits, next)
    ensures var (kits', next') := AdoptIfEntering(r, rejected, kits, k, next); Numbered(kits', next') && next <= next'
  {
  }

  lemma AdoptNext(r: Refresh, rejected: set<string>, was: Registry, next0: nat, i: nat, kits: Registry, next: nat)
    requires DistinctNames(r.scan) && i < |r.scan.kits| && AdoptedUpTo(r, rejected, was, next0, i, kits, next)
    ensures var (kits', next') := AdoptIfEntering(r, rejected, kits, r.scan.kits[i], next);
            AdoptedUpTo(r, rejected, was, next0, i + 1, kits', next')
    ensures var n := r.scan.kits[i].name; (n in kits <==> n in was) && (n in kits ==> kits[n] == was[n])
  {
    PopulatedNext(r, rejected, was, i, kits, next);
    RenewedNext(r, rejected, was, next0, i, kits, next);
    NumberedNext(r, rejected, kits, r.scan.kits[i], next);
  }

  // ---------------------------------------------------------------- the whole refresh

  lemma BeforeIsAnywhere(r: Refresh, was: Registry, n: string)
    ensures EntersBefore(r, r.RejectedDirs(was), |r.scan.kits|, n) <==> r.AdoptsName(was, n)
    ensures SurvivesBefore(r, r.RejectedDirs(was), |r.scan.kits|, n) <==> r.KeepsName(was, n)
    ensures RenewsBefore(r, r.RejectedDirs(was), was, |r.scan.kits|, n) <==>
              exists k :: k in r.scan.kits && r.Adopts(was, k) && k.name == n && r.Renews(was, k)
  {
    forall k | k in r.scan.kits ensures exists j :: 0 <= j < |r.scan.kits| && r.scan.kits[j] == k {}
  }

  lemma ReportIsExact(r: Refresh, rejected: set<string>, was: Registry, kits: Registry, report: Report,
          seen: set<string>)
    requires rejected == r.RejectedDirs(was)
    requires Populated(r, rejected, was, |r.scan.kits|, kits)
    requires Lists(r, rejected, was, |r.scan.kits|, report.added, report.reloaded, seen)
    requires report.removed == Unbacked(r, kits, seen, rejected)
    ensures r.Reports(was, report)
    ensures forall n :: n in report.removed <==> r.Drops(was, n)
  {
    forall n
      ensures n in report.removed <==> r.Drops(was, n)
      ensures n in report.added <==> n !in was && r.AdoptsName(was, n)
      ensures n in report.reloaded <==>
                n in was && exists k :: k in r.scan.kits && r.Adopts(was, k) && k.name == n && r.Renews(was, k)
    {
      BeforeIsAnywhere(r, was, n);
      EnteringSurvives(r, rejected, n);
    }
  }

  lemma EnteringSurvives(r: Refresh, rejected: set<string>, n: string)
    ensures EntersBefore(r, rejected, |r.scan.kits|, n) ==> SurvivesBefore(r, rejected, |r.scan.kits|, n)
  {
  }

  lemma LeftIsYield(r: Refresh, rejected: set<string>, was: Registry, next0: nat, kits: Registry, next: nat,
          removed: set<string>)
    requires rejected == r.RejectedDirs(was)
    requires AdoptedUpTo(r, rejected, was, next0, |r.scan.kits|, kits, next)
    requires forall n :: n in removed <==> r.Drops(was, n)
    ensures r.Yields(was, next0, Without(kits, removed), next)
  {
    var left := Without(kits, removed);
    forall n
      ensures EntersBefore(r, rejected, |r.scan.kits|, n) <==> r.AdoptsName(was, n)
      ensures r.AdoptsName(was, n) ==> n !in removed
    {
      BeforeIsAnywhere(r, was, n);
      EnteringSurvives(r, rejected, n);
    }
    forall k | k in r.scan.kits && r.Adopts(was, k)
      ensures k.name in left && r.AdoptedEntry(was, k, left[k.name], next0, next)
    {
      assert r.AdoptsName(was, k.name);
      var j :| 0 <= j < |r.scan.kits| && r.scan.kits[j] == k;
      assert Enters(r, rejected, r.scan.kits[j]);
    }
  }

  lemma RefreshOutcome(r: Refresh, rejected: set<string>, was: Registry, next0: nat, kits: Registry, next: nat,
          report: Report, seen: set<string>)
    requires rejected == r.RejectedDirs(was)
    requires AdoptedUpTo(r, rejected, was, next0, |r.scan.kits|, kits, next)
    requires Lists(r, rejected, was, |r.scan.kits|, report.added, report.reloaded, seen)
    requires report.removed == Unbacked(r, kits, seen, rejected)
    ensures r.Yields(was, next0, Without(kits, report.removed), next) && Numbered(Without(kits, report.removed), next)
    ensures r.Reports(was, report)
  {
    ReportIsExact(r, rejected, was, kits, report, seen);
    LeftIsYield(r, rejected, was, next0, kits, next, report.removed);
  }
}
