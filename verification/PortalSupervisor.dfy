/**
 The supervisor's loop and the startup guard as the programs write them, over what they read from the files.
 */
module PortalSupervisor {
  import opened Basics
  import opened Upgrade
  import opened Launches

  /** What one round of the loop finds, in the order in which it looks. */
  datatype Look = Look(
    alive: bool,
    ready: bool,
    deadlinePassed: bool,
    command: Option<Command>,
    journal: Option<Journal>,
    due: bool,
    lockFree: bool,
    journalAgain: Option<Journal>,
    spawned: bool)

  /** What one round may start. */
  function Choice(s: Watcher, look: Look): (r: Intent) {
    if s.Matches(look.command, look.journal) then ForCommand(look.command.value)
    else if look.journal.None? && look.due && look.lockFree && look.journalAgain.None? then Ordinary
    else Idle
  }

  /** The same, as the steps of module Launches take it. */
  function Steps(s: Watcher, look: Look): (r: Watcher) {
    var decided := s.(intent := SawCommand(look.command)).Decide(look.journal, look.due);
    if !decided.intent.WantsGate? then decided
    else
      var locked := decided.TakeGate(look.lockFree);
      if !locked.intent.HasGate? then locked else locked.Recheck(look.journalAgain)
  }

  lemma RoundIsSteps(s: Watcher, look: Look)
    requires s.intent.Idle? && !s.gate
    ensures Steps(s, look) == s.(intent := Choice(s, look), gate := Choice(s, look).Ordinary?)
  {}

  /** The command on file is for the transaction on file, for this supervisor, and was not carried out yet. */
  predicate IsWanted(token: nat, handled: Option<nat>, look: Look) {
    && look.command.Some? && look.journal.Some? && look.command.value.stage == look.journal.value.stage
    && look.command.value.owner == token && handled != Some(look.command.value.id)
  }

  /** Portal is due, the lock was free, and no journal was there before or after it was taken. */
  predicate MayStartUnasked(look: Look) {
    look.due && look.lockFree && look.journal.None? && look.journalAgain.None?
  }

  class SupervisorLoop {
    const token: nat
    var handled: Option<nat>
    var gate: bool
    var intent: Intent
    var launched: seq<Launched>

    ghost function State(): Watcher
      reads this
    {
      Watcher(token, handled, gate, intent)
    }

    constructor (token: nat)
      ensures State() == Watcher(token, None, false, Idle) && launched == []
    {
      this.token := token;
      handled, gate, intent, launched := None, false, Idle, [];
    }

    /** The gate stays closed to upgrades until the launched Portal is ready, gone or overdue. */
    method CloseGate(look: Look)
      modifies this`gate
      ensures gate == (old(gate) && look.alive && !look.ready && !look.deadlinePassed)
    {
      if gate && (!look.alive || look.deadlinePassed || look.ready) {
        gate := false;
      }
    }

    /** One round: a launch for the active transaction's own command, or an ordinary one under the shared lock. */
    method Round(look: Look)
      requires intent == Idle
      modifies this`handled, this`gate, this`intent, this`launched
      ensures intent == Idle
      ensures look.alive ==> handled == old(handled) && launched == old(launched)
      ensures look.alive ==> gate == (old(gate) && !look.ready && !look.deadlinePassed)
      ensures !look.alive ==>
              handled == if IsWanted(token, old(handled), look) then Some(look.command.value.id) else old(handled)
      ensures !look.alive ==> gate == (MayStartUnasked(look) && look.spawned)
      ensures !look.alive ==>
              launched == old(launched) + if !look.spawned then []
                                          else if IsWanted(token, old(handled), look) then
                                            [CommandLaunch(token, look.command.value.id)]
                                          else if MayStartUnasked(look) then [OrdinaryLaunch]
                                          else []
    {
      CloseGate(look);
      if look.alive {
        return;
      }
      ghost var before := State();
      var chosen: Option<Command> := None;
      if look.command.Some? && look.journal.Some? && look.command.value.stage == look.journal.value.stage
         && Some(look.command.value.id) != handled && look.command.value.owner == token {
        chosen := look.command;
      }
      var canStart := chosen.Some?;
      if look.journal.None? && look.due {
        // Taken before the second look at the journal, so that no journal can appear after it.
        gate := look.lockFree;
        canStart := gate && look.journalAgain.None?;
        if !canStart {
          gate := false;
        }
      }
      RoundIsSteps(before, look);
      if canStart {
        if chosen.Some? {
          handled := Some(chosen.value.id);
        }
        if !look.spawned {
          gate := false;
          return;
        }
        launched := launched + [if chosen.Some? then CommandLaunch(token, chosen.value.id) else OrdinaryLaunch];
      }
    }
  }

  datatype Admission = Admitted(holdsLock: bool) | Refused

  /** The guard of a direct start. */
  method StartupGuard(supervised: bool, given: Option<Nonce>, journal: bool, nonce: Option<Nonce>, lockFree: bool,
          journalAgain: bool)
    returns (r: Admission)
    ensures supervised ==> r == Admitted(false)
    ensures !supervised ==> (r == Admitted(false) <==> given.Some? && journal && nonce == given)
    ensures !supervised ==>
              (r == Admitted(true) <==> !(given.Some? && journal && nonce == given) && lockFree && !journalAgain)
  {
    if supervised {
      return Admitted(false);
    }
    if given.Some? {
      if journal && nonce == given {
        return Admitted(false);
      }
    }
    if !lockFree {
      return Refused;
    }
    if journalAgain {
      return Refused;
    }
    r := Admitted(true);
  }
}
