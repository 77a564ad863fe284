/**
 Reconciliation of a directory scan with the live kit registry: which scanned kits are adopted,
 which loaded owners survive, and why repeated refreshes settle.
 */
module KitRegistry {
  import opened Basics
  import opened KitLoader

  /** One loaded kit. `generation` changes exactly when the kit, its start lock and its connection are replaced. */
  datatype Entry = Entry(
    kit: Kit,
    generation: nat,
    connection: Option<nat>,
    failures: nat,
    unhealthy: bool,
    failedBefore: bool,
    unsentCalls: nat)

  type Registry = map<string, Entry>

  datatype Report = Report(added: set<string>, reloaded: set<string>, removed: set<string>,
    retainedInvalid: set<string>)
  {
    predicate Changed() {
      added != {} || reloaded != {} || removed != {}
    }
  }

  predicate Runnable(command: seq<string>, installed: set<string>) {
    command != [] && command[0] in installed
  }

  function FreshEntry(kit: Kit, generation: nat, unsentCalls: nat, installed: set<string>): Entry {
    Entry(kit, generation, None, 0, !Runnable(kit.command, installed), false, unsentCalls)
  }

  predicate Selects(target: Option<string>, name: string) {
    target.None? || target.value == name
  }

  /** A scanned kit runs into a loaded owner, unless it is that owner's own directory being edited. */
  predicate Clashes(candidate: Kit, owner: Kit, target: Option<string>) {
    && !(candidate.dir == owner.dir && Selects(target, owner.name))
    && (candidate.name == owner.name || candidate.dir == owner.dir || !(candidate.RouteSet() !! owner.RouteSet()))
  }

  /** Everything one refresh is given; `installed` answers whether a command's binary exists. */
  datatype Refresh = Refresh(scan: Scan, force: bool, target: Option<string>, installed: set<string>)
  {
    /** The owner still blocks others: its directory is on disk, or this refresh may not touch it. */
    predicate Blocks(owner: Kit) {
      !Selects(target, owner.name) || owner.dir in scan.PresentDirs()
    }

    predicate Rejects(kits: Registry, candidate: Kit) {
      Selects(target, candidate.name)
        && exists n :: n in kits && Blocks(kits[n].kit) && Clashes(candidate, kits[n].kit, target)
    }

    function RejectedDirs(kits: Registry): set<string> {
      set k | k in scan.kits && Rejects(kits, k) :: k.dir
    }

    predicate Keeps(kits: Registry, candidate: Kit) {
      candidate in scan.kits && candidate.dir !in RejectedDirs(kits)
    }

    predicate Adopts(kits: Registry, candidate: Kit) {
      Keeps(kits, candidate) && Selects(target, candidate.name)
    }

    ghost predicate AdoptsName(kits: Registry, name: string) {
      exists k :: k in scan.kits && Adopts(kits, k) && k.name == name
    }

    ghost predicate KeepsName(kits: Registry, name: string) {
      exists k :: k in scan.kits && Keeps(kits, k) && k.name == name
    }

    function HeldDirs(kits: Registry): set<string> {
      (set d | d in scan.invalidDirs) + RejectedDirs(kits)
    }

    ghost predicate Drops(kits: Registry, name: string) {
      && name in kits
      && Selects(target, name)
      && !KeepsName(kits, name)
      && kits[name].kit.dir !in HeldDirs(kits)
    }

    predicate NeedsReload(entry: Entry, candidate: Kit) {
      || force
      || entry.kit != candidate
      || (entry.unhealthy && !entry.failedBefore && Runnable(candidate.command, installed))
    }

    predicate Renews(kits: Registry, candidate: Kit) {
      candidate.name !in kits || NeedsReload(kits[candidate.name], candidate)
    }

    /** The entry of an adopted kit: untouched when nothing differs, otherwise reset under a fresh generation. */
    predicate AdoptedEntry(kits: Registry, candidate: Kit, entry: Entry, next: nat, next': nat) {
      if Renews(kits, candidate) then
        && next <= entry.generation < next'
        && entry == FreshEntry(candidate, entry.generation,
                               if candidate.name in kits then kits[candidate.name].unsentCalls else 0, installed)
      else
        entry == kits[candidate.name]
    }

    /** What a refresh does to the registry and its generation counter. */
    ghost predicate Yields(kits: Registry, next: nat, kits': Registry, next': nat) {
      && next <= next'
      && (forall n :: n in kits' <==> AdoptsName(kits, n) || (n in kits && !Drops(kits, n)))
      && (forall k :: k in scan.kits && Adopts(kits, k) ==> AdoptedEntry(kits, k, kits'[k.name], next, next'))
      && (forall n :: n in kits' && !AdoptsName(kits, n) ==> kits'[n] == kits[n])
      && (forall n, m :: n in kits' && m in kits' && n != m && next <= kits'[n].generation ==>
            kits'[n].generation != kits'[m].generation)
    }

    ghost predicate Reports(kits: Registry, report: Report) {
      && report.added == (set k | k in scan.kits && Adopts(kits, k) && k.name !in kits :: k.name)
      && report.reloaded == (set k | k in scan.kits && Adopts(kits, k) && k.name in kits && Renews(kits, k) :: k.name)
      && report.removed == (set n | n in kits && Drops(kits, n))
    }
  }

  // ---------------------------------------------------------------- ownership

  /** Keys are manifest names, directories are distinct, and no two kits own the same normalized route. */
  ghost predicate Exclusive(kits: Registry) {
    && (forall n :: n in kits ==> kits[n].kit.name == n)
    && (forall n, m :: n in kits && m in kits && n != m ==>
          kits[n].kit.dir != kits[m].kit.dir && kits[n].kit.RouteSet() !! kits[m].kit.RouteSet())
  }

  ghost predicate Numbered(kits: Registry, next: nat) {
    && (forall n :: n in kits ==> kits[n].generation < next)
    && (forall n, m :: n in kits && m in kits && n != m ==> kits[n].generation != kits[m].generation)
  }

  lemma ScanMembersDiffer(scan: Scan, a: Kit, b: Kit)
    requires scan.Valid() && a in scan.kits && b in scan.kits && a != b
    ensures a.name != b.name && a.dir != b.dir && a.RouteSet() !! b.RouteSet()
  {
    var i :| 0 <= i < |scan.kits| && scan.kits[i] == a;
    var j :| 0 <= j < |scan.kits| && scan.kits[j] == b;
    assert i < j || j < i;
  }

  lemma KeepsUnlessRejected(r: Refresh, kits: Registry, k: Kit)
    requires r.scan.Valid() && k in r.scan.kits
    ensures r.Keeps(kits, k) <==> !r.Rejects(kits, k)
  {
    forall q | q in r.scan.kits && q != k ensures q.dir != k.dir {
      ScanMembersDiffer(r.scan, q, k);
    }
  }

  lemma KeptNamesAreAdopted(r: Refresh, kits: Registry, n: string)
    requires Selects(r.target, n)
    ensures r.KeepsName(kits, n) <==> r.AdoptsName(kits, n)
  {
    if r.KeepsName(kits, n) {
      var q :| q in r.scan.kits && r.Keeps(kits, q) && q.name == n;
      assert r.Adopts(kits, q);
    }
  }

  /** A surviving owner that is not re-adopted still blocked every adopted kit, so it clashes with none. */
  lemma AdoptedAvoidsSurvivor(r: Refresh, kits: Registry, k: Kit, n: string)
    requires r.scan.Valid() && Exclusive(kits)
    requires k in r.scan.kits && r.Adopts(kits, k)
    requires n in kits && !r.Drops(kits, n) && !r.AdoptsName(kits, n)
    ensures k.dir != kits[n].kit.dir && k.RouteSet() !! kits[n].kit.RouteSet()
  {
    KeepsUnlessRejected(r, kits, k);
    var owner := kits[n].kit;
    if Selects(r.target, n) {
      KeptNamesAreAdopted(r, kits, n);
      assert owner.dir in r.HeldDirs(kits) && owner.dir in r.scan.PresentDirs();
    }
    assert r.Blocks(owner) && !Clashes(k, owner, r.target);
  }

  /** Every refresh, whatever the scan, force flag or target, keeps names, directories and routes exclusive. */
  lemma RefreshKeepsExclusive(r: Refresh, kits: Registry, next: nat, kits': Registry, next': nat)
    requires r.scan.Valid() && Exclusive(kits) && r.Yields(kits, next, kits', next')
    ensures Exclusive(kits')
  {
    forall n | n in kits' ensures kits'[n].kit.name == n {
      if r.AdoptsName(kits, n) {
        var k :| k in r.scan.kits && r.Adopts(kits, k) && k.name == n;
        assert kits'[n].kit == k;
      }
    }
    forall n, m | n in kits' && m in kits' && n != m
      ensures kits'[n].kit.dir != kits'[m].kit.dir && kits'[n].kit.RouteSet() !! kits'[m].kit.RouteSet()
    {
      PairStaysExclusive(r, kits, next, kits', next', n, m);
    }
  }

  lemma PairStaysExclusive(r: Refresh, kits: Registry, next: nat, kits': Registry, next': nat, n: string, m: string)
    requires r.scan.Valid() && Exclusive(kits) && r.Yields(kits, next, kits', next')
    requires n in kits' && m in kits' && n != m
    ensures kits'[n].kit.dir != kits'[m].kit.dir && kits'[n].kit.RouteSet() !! kits'[m].kit.RouteSet()
  {
    if r.AdoptsName(kits, n) {
      var a :| a in r.scan.kits && r.Adopts(kits, a) && a.name == n;
      assert kits'[n].kit == a;
      if r.AdoptsName(kits, m) {
        var b :| b in r.scan.kits && r.Adopts(kits, b) && b.name == m;
        assert kits'[m].kit == b;
        ScanMembersDiffer(r.scan, a, b);
      } else {
        AdoptedAvoidsSurvivor(r, kits, a, m);
      }
    } else if r.AdoptsName(kits, m) {
      var b :| b in r.scan.kits && r.Adopts(kits, b) && b.name == m;
      assert kits'[m].kit == b;
      AdoptedAvoidsSurvivor(r, kits, b, n);
    }
  }

  lemma RefreshKeepsNumbering(r: Refresh, kits: Registry, next: nat, kits': Registry, next': nat)
    requires Numbered(kits, next) && r.Yields(kits, next, kits', next')
    ensures Numbered(kits', next')
    ensures forall n :: n in kits' ==> (n in kits && kits'[n] == kits[n]) || next <= kits'[n].generation
  {
    forall n | n in kits'
      ensures kits'[n].generation < next'
      ensures (n in kits && kits'[n] == kits[n]) || next <= kits'[n].generation
    {
      if r.AdoptsName(kits, n) {
        var k :| k in r.scan.kits && r.Adopts(kits, k) && k.name == n;
        assert r.AdoptedEntry(kits, k, kits'[n], next, next');
      }
    }
  }

  // ---------------------------------------------------------------- convergence

  predicate Applied(kits: Registry, k: Kit) {
    k.name in kits && kits[k.name].kit == k
  }

  function AppliedKits(kits: Registry, scan: Scan): set<Kit> {
    set k | k in scan.kits && Applied(kits, k)
  }

  /** A periodic refresh: no force, no target. */
  predicate Periodic(r: Refresh) {
    !r.force && r.target.None?
  }

  /** The refresh has nothing to add, reload or remove. */
  ghost predicate Quiet(r: Refresh, kits: Registry) {
    && (forall k :: k in r.scan.kits && r.Adopts(kits, k) ==> !r.Renews(kits, k))
    && (forall n :: n in kits ==> !r.Drops(kits, n))
  }

  /** What the first refresh establishes: owners are on disk, and no applied kit waits for its binary in vain. */
  ghost predicate Reconciled(r: Refresh, kits: Registry) {
    forall n :: n in kits ==>
      && kits[n].kit.dir in r.scan.PresentDirs()
      && (kits[n].kit in r.scan.kits && kits[n].unhealthy && !kits[n].failedBefore ==>
            !Runnable(kits[n].kit.command, r.installed))
  }

  lemma QuietChangesNothing(r: Refresh, kits: Registry, next: nat, kits': Registry, next': nat)
    requires Quiet(r, kits) && r.Yields(kits, next, kits', next')
    ensures kits' == kits
  {
    forall n ensures n in kits' <==> n in kits {
      if r.AdoptsName(kits, n) {
        var k :| k in r.scan.kits && r.Adopts(kits, k) && k.name == n;
        assert !r.Renews(kits, k);
      }
    }
    forall n | n in kits' ensures kits'[n] == kits[n] {
      if r.AdoptsName(kits, n) {
        var k :| k in r.scan.kits && r.Adopts(kits, k) && k.name == n;
        assert r.AdoptedEntry(kits, k, kits'[n], next, next');
      }
    }
  }

  /** A scanned kit that is already applied is never rejected: only other owners could block it, and none clash. */
  lemma AppliedIsAdopted(r: Refresh, kits: Registry, k: Kit)
    requires r.scan.Valid() && Periodic(r) && Exclusive(kits)
    requires k in r.scan.kits && Applied(kits, k)
    ensures r.Adopts(kits, k)
  {
    KeepsUnlessRejected(r, kits, k);
  }

  lemma AppliedStays(r: Refresh, kits: Registry, next: nat, kits': Registry, next': nat)
    requires r.scan.Valid() && Periodic(r) && Exclusive(kits) && r.Yields(kits, next, kits', next')
    ensures AppliedKits(kits, r.scan) <= AppliedKits(kits', r.scan)
    ensures forall k :: k in r.scan.kits && r.Adopts(kits, k) ==> Applied(kits', k)
  {
    forall k | k in r.scan.kits && r.Adopts(kits, k) ensures Applied(kits', k) {
      assert r.AdoptsName(kits, k.name);
      assert r.AdoptedEntry(kits, k, kits'[k.name], next, next');
    }
    forall k | k in AppliedKits(kits, r.scan) ensures k in AppliedKits(kits', r.scan) {
      AppliedIsAdopted(r, kits, k);
    }
  }

  lemma FirstRefreshReconciles(r: Refresh, kits: Registry, next: nat, kits': Registry, next': nat)
    requires r.scan.Valid() && Periodic(r) && Exclusive(kits) && r.Yields(kits, next, kits', next')
    ensures Reconciled(r, kits')
  {
    forall n | n in kits'
      ensures kits'[n].kit.dir in r.scan.PresentDirs()
      ensures kits'[n].kit in r.scan.kits && kits'[n].unhealthy && !kits'[n].failedBefore ==>
              !Runnable(kits'[n].kit.command, r.installed)
    {
      if r.AdoptsName(kits, n) {
        var k :| k in r.scan.kits && r.Adopts(kits, k) && k.name == n;
        assert r.AdoptedEntry(kits, k, kits'[n], next, next');
      } else {
        assert kits'[n] == kits[n];
        KeptNamesAreAdopted(r, kits, n);
        if kits[n].kit in r.scan.kits {
          AppliedIsAdopted(r, kits, kits[n].kit);
        }
      }
    }
  }

  /** The directory of a dropped owner belongs to a scanned kit that this refresh adopts. */
  lemma DropComesWithAdoption(r: Refresh, kits: Registry, n: string) returns (k: Kit)
    requires r.scan.Valid() && Periodic(r) && Exclusive(kits) && Reconciled(r, kits) && r.Drops(kits, n)
    ensures k in r.scan.kits && r.Adopts(kits, k) && !Applied(kits, k)
  {
    k :| k in r.scan.kits && k.dir == kits[n].kit.dir;
    KeepsUnlessRejected(r, kits, k);
    assert r.Keeps(kits, k);
    assert Applied(kits, k) ==> k.name == n;
  }

  /** After the first refresh, every refresh that changes anything applies one more scanned kit. */
  lemma ChangeAppliesMore(r: Refresh, kits: Registry, next: nat, kits': Registry, next': nat)
    requires r.scan.Valid() && Periodic(r) && Exclusive(kits) && Reconciled(r, kits)
    requires r.Yields(kits, next, kits', next') && !Quiet(r, kits)
    ensures AppliedKits(kits, r.scan) < AppliedKits(kits', r.scan)
  {
    AppliedStays(r, kits, next, kits', next');
    var gained: Kit;
    if n :| n in kits && r.Drops(kits, n) {
      gained := DropComesWithAdoption(r, kits, n);
    } else {
      gained :| gained in r.scan.kits && r.Adopts(kits, gained) && r.Renews(kits, gained);
    }
    assert gained in AppliedKits(kits', r.scan) && gained !in AppliedKits(kits, r.scan);
  }

  /** Consecutive refreshes with an unchanging scan. */
  ghost predicate RefreshRun(r: Refresh, states: seq<Registry>, nexts: seq<nat>) {
    && 0 < |states| == |nexts|
    && forall i :: 0 <= i < |states| - 1 ==> RefreshStep(r, states, nexts, i)
  }

  ghost predicate RefreshStep(r: Refresh, states: seq<Registry>, nexts: seq<nat>, i: nat)
    requires i + 1 < |states| == |nexts|
  {
    r.Yields(states[i], nexts[i], states[i + 1], nexts[i + 1])
  }

  lemma {:induction false} RunKeepsExclusive(r: Refresh, states: seq<Registry>, nexts: seq<nat>, i: nat)
    requires r.scan.Valid() && RefreshRun(r, states, nexts) && i < |states| && Exclusive(states[0])
    ensures Exclusive(states[i])
  {
    if i > 0 {
      RunKeepsExclusive(r, states, nexts, i - 1);
      assert RefreshStep(r, states, nexts, i - 1);
      RefreshKeepsExclusive(r, states[i - 1], nexts[i - 1], states[i], nexts[i]);
    }
  }

  /** One step of a run: a quiet registry stays as it is, and any later change applies one more kit. */
  lemma StepOfRun(r: Refresh, states: seq<Registry>, nexts: seq<nat>, i: nat)
    requires r.scan.Valid() && Periodic(r) && RefreshRun(r, states, nexts) && i + 1 < |states| && Exclusive(states[0])
    ensures Quiet(r, states[i]) ==> states[i + 1] == states[i]
    ensures i > 0 && !Quiet(r, states[i]) ==>
            |AppliedKits(states[i], r.scan)| < |AppliedKits(states[i + 1], r.scan)|
  {
    RunKeepsExclusive(r, states, nexts, i);
    assert RefreshStep(r, states, nexts, i);
    if Quiet(r, states[i]) {
      QuietChangesNothing(r, states[i], nexts[i], states[i + 1], nexts[i + 1]);
    } else if i > 0 {
      RunReconciles(r, states, nexts, i);
      ChangeAppliesMore(r, states[i], nexts[i], states[i + 1], nexts[i + 1]);
      SubsetBound(AppliedKits(states[i], r.scan), AppliedKits(states[i + 1], r.scan));
    }
  }

  lemma RunReconciles(r: Refresh, states: seq<Registry>, nexts: seq<nat>, i: nat)
    requires r.scan.Valid() && Periodic(r) && RefreshRun(r, states, nexts) && 0 < i < |states| && Exclusive(states[0])
    ensures Reconciled(r, states[i])
  {
    RunKeepsExclusive(r, states, nexts, i - 1);
    assert RefreshStep(r, states, nexts, i - 1);
    FirstRefreshReconciles(r, states[i - 1], nexts[i - 1], states[i], nexts[i]);
  }

  lemma AppliedBound(kits: Registry, scan: Scan)
    ensures |AppliedKits(kits, scan)| <= |scan.kits|
  {
    var all := set k | k in scan.kits;
    SetOfSeqBound(scan.kits);
    SubsetBound(AppliedKits(kits, scan), all);
  }

  lemma {:induction false} SetOfSeqBound(s: seq<Kit>)
    ensures |set k | k in s| <= |s|
  {
    if s != [] {
      SetOfSeqBound(s[1..]);
      assert (set k | k in s) == (set k | k in s[1..]) + {s[0]};
    }
  }

  lemma {:induction false} SubsetBound<T>(a: set<T>, b: set<T>)
    requires a <= b
    ensures |a| <= |b|
    ensures a != b ==> |a| < |b|
  {
    if a != {} {
      var x :| x in a;
      SubsetBound(a - {x}, b - {x});
    }
  }

  /** A measure that grows at every step that is not quiet forces a quiet step. */
  lemma {:induction false} GrowthEnds(quiet: seq<bool>, size: seq<nat>, i: nat)
    requires 1 <= i < |quiet| == |size|
    requires forall j :: 1 <= j < i && !quiet[j] ==> size[j] < size[j + 1]
    requires forall j :: 1 <= j < i ==> !quiet[j]
    ensures size[i] >= i - 1
  {
    if i > 1 {
      GrowthEnds(quiet, size, i - 1);
    }
  }

  lemma {:induction false} QuietForever(states: seq<Registry>, quiet: seq<bool>, at: nat, j: nat)
    requires at <= j < |states| == |quiet| && quiet[at]
    requires forall i, k :: 0 <= i < |states| && 0 <= k < |states| && states[i] == states[k] ==> quiet[i] == quiet[k]
    requires forall i :: 0 <= i < |states| - 1 && quiet[i] ==> states[i + 1] == states[i]
    ensures states[j] == states[at]
  {
    if at < j {
      QuietForever(states, quiet, at, j - 1);
    }
  }

  /** Convergence: from refresh |scan| + 2 on nothing changes any more, conflict chains and cycles included. */
  lemma RefreshConverges(r: Refresh, states: seq<Registry>, nexts: seq<nat>)
    returns (at: nat)
    requires r.scan.Valid() && Periodic(r) && RefreshRun(r, states, nexts) && Exclusive(states[0])
    requires |states| > |r.scan.kits| + 2
    ensures at <= |r.scan.kits| + 1 && Quiet(r, states[at])
    ensures forall j :: at <= j < |states| ==> states[j] == states[at]
  {
    ghost var quiet := seq(|states|, i requires 0 <= i < |states| => Quiet(r, states[i]));
    var size := seq(|states|, i requires 0 <= i < |states| => |AppliedKits(states[i], r.scan)|);
    var last := |r.scan.kits| + 2;
    forall i | 0 <= i < |states| - 1
      ensures quiet[i] ==> states[i + 1] == states[i]
      ensures i > 0 && !quiet[i] ==> size[i] < size[i + 1]
    {
      StepOfRun(r, states, nexts, i);
    }
    AppliedBound(states[last], r.scan);
    if forall j :: 1 <= j < last ==> !quiet[j] {
      GrowthEnds(quiet, size, last);
      assert false;
    }
    at :| 1 <= at < last && quiet[at];
    forall j | at <= j < |states| ensures states[j] == states[at] {
      QuietForever(states, quiet, at, j);
    }
  }

  /** In a settled registry a scanned kit is applied unless a loaded owner, still on disk, clashes with it. */
  lemma SettledMeansAppliedOrBlocked(r: Refresh, kits: Registry, k: Kit)
    requires r.scan.Valid() && Periodic(r) && Exclusive(kits) && Quiet(r, kits) && k in r.scan.kits
    ensures Applied(kits, k) <==>
            !(exists n :: n in kits && kits[n].kit.dir in r.scan.PresentDirs() && Clashes(k, kits[n].kit, None))
  {
    KeepsUnlessRejected(r, kits, k);
    if !r.Rejects(kits, k) {
      assert r.Adopts(kits, k) && !r.Renews(kits, k);
    }
  }

  // ---------------------------------------------------------------- what a refresh does, from the fields alone

  predicate SameButHyphens(s: string, t: string) {
    |s| == |t| && forall i :: 0 <= i < |s| ==> s[i] == t[i] || (s[i] in "-_" && t[i] in "-_")
  }

  /** Some tool of each would be called by the same name. */
  ghost predicate SharesRoute(a: Kit, b: Kit) {
    exists x, y :: x in a.tools && y in b.tools && SameButHyphens(a.name + "_" + x, b.name + "_" + y)
  }

  predicate Chosen(r: Refresh, name: string) {
    r.target.None? || r.target.value == name
  }

  ghost predicate OnDisk(r: Refresh, dir: string) {
    dir in r.scan.invalidDirs || exists k :: k in r.scan.kits && k.dir == dir
  }

  /** A loaded kit keeps a scanned one out: it is not uninstalled by this refresh and has its name, its directory or one
      of its routes, unless the scanned kit is the loaded one edited in its own directory. */
  ghost predicate InTheWay(r: Refresh, owner: Kit, k: Kit) {
    && (!Chosen(r, owner.name) || OnDisk(r, owner.dir))
    && (k.name == owner.name || k.dir == owner.dir || SharesRoute(k, owner))
    && !(k.dir == owner.dir && Chosen(r, owner.name))
  }

  ghost predicate Taken(r: Refresh, kits: Registry, k: Kit) {
    k in r.scan.kits && Chosen(r, k.name) && forall n :: n in kits ==> !InTheWay(r, kits[n].kit, k)
  }

  /** Asked for by force, new, changed, or out of service only because its command was missing, which it no longer
      is. */
  predicate Outdated(r: Refresh, kits: Registry, k: Kit) {
    || r.force || k.name !in kits || kits[k.name].kit != k
    || (kits[k.name].unhealthy && !kits[k.name].failedBefore && k.command != [] && k.command[0] in r.installed)
  }

  /** Started over: the connection and the failures are gone, the unsent calls are not. */
  predicate StartedOver(e: Entry, k: Kit, unsentCalls: nat, installed: set<string>) {
    && e.kit == k && e.connection.None? && e.failures == 0 && !e.failedBefore && e.unsentCalls == unsentCalls
    && (e.unhealthy <==> k.command == [] || k.command[0] !in installed)
  }

  /** A loaded kit that no scanned one takes over is kept if this refresh is not about it, or its directory is there but
      cannot be used. */
  ghost predicate Kept(r: Refresh, kits: Registry, n: string)
    requires n in kits
  {
    !Chosen(r, n) || Unusable(r, kits, kits[n].kit.dir)
  }

  /** A directory whose manifest is invalid or kept out by another kit. */
  ghost predicate Unusable(r: Refresh, kits: Registry, dir: string) {
    || dir in r.scan.invalidDirs
    || exists k :: k in r.scan.kits && Chosen(r, k.name) && k.dir == dir && !Taken(r, kits, k)
  }

  ghost predicate TakesOver(r: Refresh, kits: Registry, n: string) {
    exists k :: Taken(r, kits, k) && k.name == n
  }

  ghost predicate TakenMeans(r: Refresh, kits: Registry, next: nat, kits': Registry, next': nat, report: Report,
          k: Kit) {
    && k.name in kits' && k.name !in report.removed
    && if Outdated(r, kits, k) then
         && next <= kits'[k.name].generation < next'
         && StartedOver(kits'[k.name], k, if k.name in kits then kits[k.name].unsentCalls else 0, r.installed)
         && (k.name in report.added <==> k.name !in kits) && (k.name in report.reloaded <==> k.name in kits)
       else
         k.name in kits && kits'[k.name] == kits[k.name] && k.name !in report.added && k.name !in report.reloaded
  }

  ghost predicate UntakenMeans(r: Refresh, kits: Registry, kits': Registry, report: Report, n: string)
    requires n in kits
  {
    && n !in report.added && n !in report.reloaded
    && if Kept(r, kits, n) then n in kits' && kits'[n] == kits[n] && n !in report.removed
       else n !in kits' && n in report.removed
  }

  /** Every entry and the whole report after a refresh. */
  ghost predicate RefreshMeans(r: Refresh, kits: Registry, next: nat, kits': Registry, next': nat, report: Report) {
    && (forall k :: Taken(r, kits, k) ==> TakenMeans(r, kits, next, kits', next', report, k))
    && (forall n :: n in kits && !TakesOver(r, kits, n) ==> UntakenMeans(r, kits, kits', report, n))
    && (forall n :: n in kits' ==> n in kits || TakesOver(r, kits, n))
    && (forall n :: n in report.added + report.reloaded ==> TakesOver(r, kits, n))
    && (forall n :: n in report.removed ==> n in kits)
  }

  lemma RoutesMeanTools(a: Kit, b: Kit)
    ensures !(a.RouteSet() !! b.RouteSet()) <==> SharesRoute(a, b)
  {
    if route :| route in a.RouteSet() && route in b.RouteSet() {
      var i :| 0 <= i < |a.Routes()| && a.Routes()[i] == route;
      var j :| 0 <= j < |b.Routes()| && b.Routes()[j] == route;
      SameRouteMeans(a.name + "_" + a.tools[i], b.name + "_" + b.tools[j]);
      assert a.tools[i] in a.tools && b.tools[j] in b.tools;
    }
    if SharesRoute(a, b) {
      var x, y :| x in a.tools && y in b.tools && SameButHyphens(a.name + "_" + x, b.name + "_" + y);
      var i :| 0 <= i < |a.tools| && a.tools[i] == x;
      var j :| 0 <= j < |b.tools| && b.tools[j] == y;
      SameRouteMeans(a.name + "_" + x, b.name + "_" + y);
      assert a.Routes()[i] == b.Routes()[j];
      assert a.Routes()[i] in a.RouteSet() && b.Routes()[j] in b.RouteSet();
    }
  }

  lemma SameRouteMeans(s: string, t: string)
    ensures Normalize(s) == Normalize(t) <==> SameButHyphens(s, t)
  {
    if Normalize(s) == Normalize(t) {
      assert |s| == |Normalize(s)| == |Normalize(t)| == |t|;
      forall i | 0 <= i < |s| ensures s[i] == t[i] || (s[i] in "-_" && t[i] in "-_") {
        assert Normalize(s)[i] == Normalize(t)[i];
      }
    }
  }

  lemma ClashesMeansInTheWay(r: Refresh, owner: Kit, k: Kit)
    ensures r.Blocks(owner) && Clashes(k, owner, r.target) <==> InTheWay(r, owner, k)
  {
    RoutesMeanTools(k, owner);
    assert owner.dir in r.scan.PresentDirs() <==> OnDisk(r, owner.dir);
  }

  lemma AdoptsMeansTaken(r: Refresh, kits: Registry, k: Kit)
    requires r.scan.Valid()
    ensures r.Adopts(kits, k) <==> Taken(r, kits, k)
    ensures k in r.scan.kits && Chosen(r, k.name) ==> (r.Rejects(kits, k) <==> !Taken(r, kits, k))
  {
    forall n | n in kits ensures r.Blocks(kits[n].kit) && Clashes(k, kits[n].kit, r.target) <==>
      InTheWay(r, kits[n].kit, k) {
      ClashesMeansInTheWay(r, kits[n].kit, k);
    }
    if k in r.scan.kits {
      KeepsUnlessRejected(r, kits, k);
    }
  }

  lemma DropsMeansNotKept(r: Refresh, kits: Registry, n: string)
    requires r.scan.Valid() && n in kits && !TakesOver(r, kits, n)
    ensures r.Drops(kits, n) <==> !Kept(r, kits, n)
  {
    HeldMeansUnusable(r, kits, kits[n].kit.dir);
    AdoptedNamesAreTaken(r, kits, n);
    if Chosen(r, n) {
      KeptNamesAreAdopted(r, kits, n);
    }
  }

  lemma HeldMeansUnusable(r: Refresh, kits: Registry, dir: string)
    requires r.scan.Valid()
    ensures dir in r.scan.invalidDirs || dir in r.RejectedDirs(kits) <==> Unusable(r, kits, dir)
  {
    forall k ensures k in r.scan.kits && Chosen(r, k.name) ==> (r.Rejects(kits, k) <==> !Taken(r, kits, k)) {
      AdoptsMeansTaken(r, kits, k);
    }
  }

  lemma TakenIsRenewedIfOutdated(r: Refresh, kits: Registry, next: nat, kits': Registry, next': nat, report: Report,
          k: Kit)
    requires r.scan.Valid() && r.Yields(kits, next, kits', next') && r.Reports(kits, report) && Taken(r, kits, k)
    ensures TakenMeans(r, kits, next, kits', next', report, k)
  {
    AdoptsMeansTaken(r, kits, k);
    assert r.AdoptsName(kits, k.name);
    assert r.AdoptedEntry(kits, k, kits'[k.name], next, next');
    forall l | l in r.scan.kits && l != k ensures l.name != k.name {
      ScanMembersDiffer(r.scan, k, l);
    }
    assert !r.Drops(kits, k.name);
  }

  /** The relation a refresh follows means just this. */
  lemma YieldMeans(r: Refresh, kits: Registry, next: nat, kits': Registry, next': nat, report: Report)
    requires r.scan.Valid() && r.Yields(kits, next, kits', next') && r.Reports(kits, report)
    ensures RefreshMeans(r, kits, next, kits', next', report)
  {
    forall k | Taken(r, kits, k) ensures TakenMeans(r, kits, next, kits', next', report, k) {
      TakenIsRenewedIfOutdated(r, kits, next, kits', next', report, k);
    }
    forall n ensures r.AdoptsName(kits, n) <==> TakesOver(r, kits, n) {
      AdoptedNamesAreTaken(r, kits, n);
    }
    forall n | n in kits && !TakesOver(r, kits, n) ensures UntakenMeans(r, kits, kits', report, n) {
      DropsMeansNotKept(r, kits, n);
    }
  }

  lemma AdoptedNamesAreTaken(r: Refresh, kits: Registry, n: string)
    requires r.scan.Valid()
    ensures r.AdoptsName(kits, n) <==> TakesOver(r, kits, n)
  {
    forall k ensures r.Adopts(kits, k) <==> Taken(r, kits, k) {
      AdoptsMeansTaken(r, kits, k);
    }
  }
}
