/**
 The conflict pass at the end of a kit directory scan, and the routes it protects.
 */
module KitLoader {

  /** A manifest's environment or authentication after loading; `failed` is its configuration error. */
  datatype Setup = Setup(values: string, failed: bool)

  /** `rest` stands for the manifest fields that only take part in equality (version, platform, permissions...). */
  datatype Kit = Kit(
    name: string,
    tools: seq<string>,
    rest: string,
    dir: string,
    command: seq<string>,
    environment: Setup,
    auth: Setup)
  {
    predicate Misconfigured() {
      environment.failed || auth.failed
    }

    function Routes(): (r: seq<string>)
      ensures |r| == |tools|
    {
      seq(|tools|, i requires 0 <= i < |tools| => ToolRoute(name, tools[i]))
    }

    function RouteSet(): (r: set<string>)
      ensures forall i :: 0 <= i < |tools| ==> Routes()[i] in r
    {
      set route | route in Routes()
    }
  }

  datatype Scan = Scan(kits: seq<Kit>, invalidDirs: seq<string>)
  {
    function PresentDirs(): set<string> {
      (set k | k in kits :: k.dir) + (set d | d in invalidDirs)
    }

    /** What the registry may rely on in a scan. */
    ghost predicate Valid() {
      && (forall i, j :: 0 <= i < j < |kits| ==>
            && kits[i].name != kits[j].name
            && kits[i].dir != kits[j].dir
            && kits[i].RouteSet() !! kits[j].RouteSet())
      && (forall k :: k in kits ==> k.dir !in invalidDirs)
    }
  }

  function Normalize(s: string): (r: string)
    ensures |r| == |s|
    ensures forall i :: 0 <= i < |s| ==> r[i] == if s[i] == '-' then '_' else s[i]
  {
    seq(|s|, i requires 0 <= i < |s| => if s[i] == '-' then '_' else s[i])
  }

  function ToolRoute(kit: string, tool: string): string {
    Normalize(kit + "_" + tool)
  }

  // ---------------------------------------------------------------- the pairwise definition

  ghost predicate SharesRoute(a: Kit, b: Kit) {
    exists r, q :: 0 <= r < |a.tools| && 0 <= q < |b.tools| && a.Routes()[r] == b.Routes()[q]
  }

  ghost predicate RepeatsRoute(k: Kit) {
    exists r, q :: 0 <= r < q < |k.tools| && k.Routes()[r] == k.Routes()[q]
  }

  /** The quadratic definition: kit i repeats a route, or shares its name or a route with another kit. */
  ghost predicate Conflicting(kits: seq<Kit>, i: nat)
    requires i < |kits|
  {
    || RepeatsRoute(kits[i])
    || (exists j :: 0 <= j < |kits| && j != i && (kits[j].name == kits[i].name || SharesRoute(kits[i], kits[j])))
  }

  ghost function Accepted(kits: seq<Kit>, conflicts: set<nat>, upTo: nat): seq<Kit>
    requires upTo <= |kits|
  {
    if upTo == 0 then []
    else Accepted(kits, conflicts, upTo - 1) + if upTo - 1 in conflicts then [] else [kits[upTo - 1]]
  }

  ghost function RejectedDirs(kits: seq<Kit>, conflicts: set<nat>, upTo: nat): seq<string>
    requires upTo <= |kits|
  {
    if upTo == 0 then []
    else RejectedDirs(kits, conflicts, upTo - 1) + if upTo - 1 in conflicts then [kits[upTo - 1].dir] else []
  }

  ghost function Conflicts(kits: seq<Kit>): (r: set<nat>)
    ensures forall i: nat :: i in r <==> i < |kits| && Conflicting(kits, i)
  {
    set i: nat | i < |kits| && Conflicting(kits, i)
  }

  // ---------------------------------------------------------------- the single pass

  /** The key sequence one kit contributes: its name, then its tool routes, in disjoint name spaces. */
  function Keys(k: Kit): (r: seq<string>)
    ensures |r| == 1 + |k.tools|
  {
    ["kit:" + k.name] + seq(|k.tools|, i requires 0 <= i < |k.tools| => "tool:" + k.Routes()[i])
  }

  function AllKeys(kits: seq<Kit>): (r: seq<seq<string>>)
    ensures |r| == |kits| && forall i :: 0 <= i < |kits| ==> r[i] == Keys(kits[i])
  {
    seq(|kits|, i requires 0 <= i < |kits| => Keys(kits[i]))
  }

  /** Occurrence (i, r) precedes position (n, m) of the nested traversal. */
  ghost predicate Before(keys: seq<seq<string>>, i: nat, r: nat, n: nat, m: nat) {
    i < |keys| && r < |keys[i]| && (i < n || (i == n && r < m))
  }

  /** Two different occurrences before (n, m) carry the same key. */
  ghost predicate Twins(keys: seq<seq<string>>, i: nat, r: nat, j: nat, q: nat, n: nat, m: nat) {
    && Before(keys, i, r, n, m) && Before(keys, j, q, n, m)
    && (i != j || r != q)
    && keys[i][r] == keys[j][q]
  }

  /** Some earlier occurrence of kit i has the same key as a different earlier occurrence. */
  ghost predicate Collides(keys: seq<seq<string>>, i: nat, n: nat, m: nat) {
    exists r: nat, j: nat, q: nat :: Twins(keys, i, r, j, q, n, m)
  }

  ghost predicate Owns(keys: seq<seq<string>>, i: nat, key: string, n: nat, m: nat) {
    exists r: nat :: Before(keys, i, r, n, m) && keys[i][r] == key
  }

  ghost predicate Tracks(keys: seq<seq<string>>, owners: map<string, nat>, conflicts: set<nat>, n: nat, m: nat) {
    && (forall i: nat, r: nat :: Before(keys, i, r, n, m) ==> keys[i][r] in owners)
    && (forall key :: key in owners ==> Owns(keys, owners[key], key, n, m))
    && (forall i: nat :: i in conflicts <==> Collides(keys, i, n, m))
  }

  lemma OwnersAfterInsert(keys: seq<seq<string>>, owners: map<string, nat>, n: nat, m: nat)
    requires n < |keys| && m < |keys[n]|
    requires forall key :: key in owners ==> Owns(keys, owners[key], key, n, m)
    ensures var owners' := owners[keys[n][m] := n];
            forall key :: key in owners' ==> Owns(keys, owners'[key], key, n, m + 1)
  {
    var owners' := owners[keys[n][m] := n];
    forall key | key in owners' ensures Owns(keys, owners'[key], key, n, m + 1) {
      if key == keys[n][m] {
        assert Before(keys, n, m, n, m + 1);
      } else {
        var r: nat :| Before(keys, owners[key], r, n, m) && keys[owners[key]][r] == key;
        assert Before(keys, owners[key], r, n, m + 1);
      }
    }
  }

  /** What an insertion adds to the collisions: itself and the previous owner, nothing else. */
  lemma CollisionsAfterInsert(keys: seq<seq<string>>, owners: map<string, nat>, conflicts: set<nat>, n: nat, m: nat,
          i: nat)
    requires n < |keys| && m < |keys[n]| && Tracks(keys, owners, conflicts, n, m)
    ensures var key := keys[n][m];
            Collides(keys, i, n, m + 1) <==>
            i in conflicts || (key in owners && (i == n || i == owners[key]))
  {
    var key := keys[n][m];
    if i in conflicts {
      var r: nat, j: nat, q: nat :| Twins(keys, i, r, j, q, n, m);
      assert Twins(keys, i, r, j, q, n, m + 1);
    }
    if key in owners {
      var p: nat :| Before(keys, owners[key], p, n, m) && keys[owners[key]][p] == key;
      assert Twins(keys, owners[key], p, n, m, n, m + 1);
      assert Twins(keys, n, m, owners[key], p, n, m + 1);
    }
    if Collides(keys, i, n, m + 1) {
      var r: nat, j: nat, q: nat :| Twins(keys, i, r, j, q, n, m + 1);
      if i == n && r == m {
        assert Before(keys, j, q, n, m);
      } else if j == n && q == m {
        // The new occurrence meets (i, r): either i is still the owner, or it had already met it.
        var p: nat :| Before(keys, owners[key], p, n, m) && keys[owners[key]][p] == key;
        if i != owners[key] {
          assert Twins(keys, i, r, owners[key], p, n, m);
        }
      } else {
        assert Twins(keys, i, r, j, q, n, m);
      }
    }
  }

  /** One insertion into the overwriting owner map keeps the conflict set exact. */
  lemma InsertTracks(keys: seq<seq<string>>, owners: map<string, nat>, conflicts: set<nat>, n: nat, m: nat)
    requires n < |keys| && m < |keys[n]| && Tracks(keys, owners, conflicts, n, m)
    ensures var key := keys[n][m];
            Tracks(keys, owners[key := n],
                   if key in owners then conflicts + {owners[key], n} else conflicts, n, m + 1)
  {
    OwnersAfterInsert(keys, owners, n, m);
    forall i: nat {
      CollisionsAfterInsert(keys, owners, conflicts, n, m, i);
    }
  }

  lemma NextKitTracks(keys: seq<seq<string>>, owners: map<string, nat>, conflicts: set<nat>, n: nat)
    requires n < |keys| && Tracks(keys, owners, conflicts, n, |keys[n]|)
    ensures Tracks(keys, owners, conflicts, n + 1, 0)
  {
    var m := |keys[n]|;
    forall i: nat, r: nat ensures Before(keys, i, r, n, m) <==> Before(keys, i, r, n + 1, 0) {}
    forall i: nat, r: nat, j: nat, q: nat
      ensures Twins(keys, i, r, j, q, n, m) <==> Twins(keys, i, r, j, q, n + 1, 0) {}
    forall i: nat ensures Collides(keys, i, n, m) <==> Collides(keys, i, n + 1, 0) {
      if Collides(keys, i, n, m) {
        var r: nat, j: nat, q: nat :| Twins(keys, i, r, j, q, n, m);
        assert Twins(keys, i, r, j, q, n + 1, 0);
      }
      if Collides(keys, i, n + 1, 0) {
        var r: nat, j: nat, q: nat :| Twins(keys, i, r, j, q, n + 1, 0);
        assert Twins(keys, i, r, j, q, n, m);
      }
    }
    forall key | key in owners ensures Owns(keys, owners[key], key, n + 1, 0) {
      var r: nat :| Before(keys, owners[key], r, n, m) && keys[owners[key]][r] == key;
      assert Before(keys, owners[key], r, n + 1, 0);
    }
  }

  /** Equal keys mean equal names or equal routes: the two prefixes never meet. */
  lemma KeyMeaning(a: Kit, r: nat, b: Kit, q: nat)
    requires r < |Keys(a)| && q < |Keys(b)|
    ensures Keys(a)[r] == Keys(b)[q] <==>
            || (r == 0 && q == 0 && a.name == b.name)
            || (r > 0 && q > 0 && a.Routes()[r - 1] == b.Routes()[q - 1])
  {
    var x := if r == 0 then a.name else a.Routes()[r - 1];
    var y := if q == 0 then b.name else b.Routes()[q - 1];
    assert Keys(a)[r] == (if r == 0 then "kit:" else "tool:") + x;
    assert Keys(b)[q] == (if q == 0 then "kit:" else "tool:") + y;
    assert "kit:"[0] != "tool:"[0];
    if r == 0 && q == 0 {
      assert Keys(a)[r][4..] == x && Keys(b)[q][4..] == y;
    } else if r > 0 && q > 0 {
      assert Keys(a)[r][5..] == x && Keys(b)[q][5..] == y;
    } else {
      assert Keys(a)[r][0] != Keys(b)[q][0];
    }
  }

  lemma ConflictingCollides(kits: seq<Kit>, i: nat)
    requires i < |kits| && Conflicting(kits, i)
    ensures Collides(AllKeys(kits), i, |kits|, 0)
  {
    var keys := AllKeys(kits);
    if RepeatsRoute(kits[i]) {
      var r: nat, q: nat :| r < q < |kits[i].tools| && kits[i].Routes()[r] == kits[i].Routes()[q];
      KeyMeaning(kits[i], r + 1, kits[i], q + 1);
      assert Twins(keys, i, r + 1, i, q + 1, |kits|, 0);
    } else {
      var j: nat :| j < |kits| && j != i && (kits[j].name == kits[i].name || SharesRoute(kits[i], kits[j]));
      if kits[j].name == kits[i].name {
        KeyMeaning(kits[i], 0, kits[j], 0);
        assert Twins(keys, i, 0, j, 0, |kits|, 0);
      } else {
        var r: nat, q: nat :| r < |kits[i].tools| && q < |kits[j].tools| && kits[i].Routes()[r] == kits[j].Routes()[q];
        KeyMeaning(kits[i], r + 1, kits[j], q + 1);
        assert Twins(keys, i, r + 1, j, q + 1, |kits|, 0);
      }
    }
  }

  /** Key collisions over the whole traversal are exactly the pairwise conflicts. */
  lemma CollidesIsConflicting(kits: seq<Kit>, i: nat)
    requires i < |kits|
    ensures Collides(AllKeys(kits), i, |kits|, 0) <==> Conflicting(kits, i)
  {
    var keys := AllKeys(kits);
    if Collides(keys, i, |kits|, 0) {
      var r: nat, j: nat, q: nat :| Twins(keys, i, r, j, q, |kits|, 0);
      KeyMeaning(kits[i], r, kits[j], q);
      if i == j {
        var lo, hi := if r < q then r - 1 else q - 1, if r < q then q - 1 else r - 1;
        assert kits[i].Routes()[lo] == kits[i].Routes()[hi];
      } else if r > 0 {
        assert kits[i].Routes()[r - 1] == kits[j].Routes()[q - 1];
        assert SharesRoute(kits[i], kits[j]);
      }
    }
    if Conflicting(kits, i) {
      ConflictingCollides(kits, i);
    }
  }

  /** The loader's nested loops: every key of every kit goes through one overwriting owner map. */
  method CollidingKits(keys: seq<seq<string>>) returns (conflicts: set<nat>)
    ensures forall i: nat :: i in conflicts <==> Collides(keys, i, |keys|, 0)
  {
    var owners: map<string, nat> := map[];
    conflicts := {};
    for index := 0 to |keys|
      invariant Tracks(keys, owners, conflicts, index, 0)
    {
      for r := 0 to |keys[index]|
        invariant Tracks(keys, owners, conflicts, index, r)
      {
        InsertTracks(keys, owners, conflicts, index, r);
        if keys[index][r] in owners {
          var previous := owners[keys[index][r]];
          conflicts := conflicts + {previous, index};
        }
        owners := owners[keys[index][r] := index];
      }
      NextKitTracks(keys, owners, conflicts, index);
    }
  }

  lemma CollisionsAreConflicts(kits: seq<Kit>, conflicts: set<nat>)
    requires forall i: nat :: i in conflicts <==> Collides(AllKeys(kits), i, |AllKeys(kits)|, 0)
    ensures conflicts == Conflicts(kits)
  {
    forall i: nat ensures i in conflicts <==> i in Conflicts(kits) {
      if i < |kits| {
        CollidesIsConflicting(kits, i);
      }
    }
  }

  /** The single pass rejects exactly the pairwise-conflicting kits and keeps the rest in order. */
  method ConflictPass(kits: seq<Kit>, invalidDirs: seq<string>) returns (scan: Scan)
    ensures scan.kits == Accepted(kits, Conflicts(kits), |kits|)
    ensures scan.invalidDirs == invalidDirs + RejectedDirs(kits, Conflicts(kits), |kits|)
  {
    var conflicts := CollidingKits(AllKeys(kits));
    CollisionsAreConflicts(kits, conflicts);
    scan := Partition(kits, conflicts, invalidDirs);
  }

  method Partition(kits: seq<Kit>, conflicts: set<nat>, invalidDirs: seq<string>) returns (scan: Scan)
    ensures scan.kits == Accepted(kits, conflicts, |kits|)
    ensures scan.invalidDirs == invalidDirs + RejectedDirs(kits, conflicts, |kits|)
  {
    var accepted, invalid := [], invalidDirs;
    for index := 0 to |kits|
      invariant accepted == Accepted(kits, conflicts, index)
      invariant invalid == invalidDirs + RejectedDirs(kits, conflicts, index)
    {
      if index in conflicts {
        invalid := invalid + [kits[index].dir];
      } else {
        accepted := accepted + [kits[index]];
      }
    }
    scan := Scan(accepted, invalid);
  }

  // ---------------------------------------------------------------- what a scan guarantees

  lemma AcceptedMembers(kits: seq<Kit>, conflicts: set<nat>, upTo: nat, a: nat)
    returns (i: nat)
    requires upTo <= |kits| && a < |Accepted(kits, conflicts, upTo)|
    ensures i < upTo && i !in conflicts && Accepted(kits, conflicts, upTo)[a] == kits[i]
    ensures a == |Accepted(kits, conflicts, i)|
  {
    if a < |Accepted(kits, conflicts, upTo - 1)| {
      i := AcceptedMembers(kits, conflicts, upTo - 1, a);
    } else {
      i := upTo - 1;
    }
  }

  lemma RejectedMembers(kits: seq<Kit>, conflicts: set<nat>, upTo: nat, d: string)
    returns (i: nat)
    requires upTo <= |kits| && d in RejectedDirs(kits, conflicts, upTo)
    ensures i < upTo && i in conflicts && kits[i].dir == d
  {
    if d in RejectedDirs(kits, conflicts, upTo - 1) {
      i := RejectedMembers(kits, conflicts, upTo - 1, d);
    } else {
      i := upTo - 1;
    }
  }

  lemma DisjointRoutes(a: Kit, b: Kit)
    requires !SharesRoute(a, b)
    ensures a.RouteSet() !! b.RouteSet()
  {
    forall r, q | 0 <= r < |a.tools| && 0 <= q < |b.tools|
      ensures a.Routes()[r] != b.Routes()[q] {}
  }

  lemma AcceptedArePairwiseFree(kits: seq<Kit>, a: nat, b: nat)
    requires a < b < |Accepted(kits, Conflicts(kits), |kits|)|
    requires forall i, j :: 0 <= i < j < |kits| ==> kits[i].dir != kits[j].dir
    ensures var accepted := Accepted(kits, Conflicts(kits), |kits|);
            && accepted[a].name != accepted[b].name
            && accepted[a].dir != accepted[b].dir
            && accepted[a].RouteSet() !! accepted[b].RouteSet()
  {
    var i := AcceptedMembers(kits, Conflicts(kits), |kits|, a);
    var j := AcceptedMembers(kits, Conflicts(kits), |kits|, b);
    assert i != j && !Conflicting(kits, i);
    DisjointRoutes(kits[i], kits[j]);
  }

  lemma AcceptedDirsAreValid(kits: seq<Kit>, invalidDirs: seq<string>, a: nat, d: string)
    requires forall i, j :: 0 <= i < j < |kits| ==> kits[i].dir != kits[j].dir
    requires forall k :: k in kits ==> k.dir !in invalidDirs
    requires a < |Accepted(kits, Conflicts(kits), |kits|)|
    requires d in invalidDirs || d in RejectedDirs(kits, Conflicts(kits), |kits|)
    ensures Accepted(kits, Conflicts(kits), |kits|)[a].dir != d
  {
    var i := AcceptedMembers(kits, Conflicts(kits), |kits|, a);
    assert kits[i] in kits;
    if d !in invalidDirs {
      var j := RejectedMembers(kits, Conflicts(kits), |kits|, d);
      assert i != j;
    }
  }

  /** Directory entries are distinct, so the scan handed to the registry is always valid. */
  lemma ScanIsValid(kits: seq<Kit>, invalidDirs: seq<string>)
    requires forall i, j :: 0 <= i < j < |kits| ==> kits[i].dir != kits[j].dir
    requires forall k :: k in kits ==> k.dir !in invalidDirs
    ensures Scan(Accepted(kits, Conflicts(kits), |kits|),
                 invalidDirs + RejectedDirs(kits, Conflicts(kits), |kits|)).Valid()
  {
    var accepted := Accepted(kits, Conflicts(kits), |kits|);
    var invalid := invalidDirs + RejectedDirs(kits, Conflicts(kits), |kits|);
    forall a, b | 0 <= a < b < |accepted| {
      AcceptedArePairwiseFree(kits, a, b);
    }
    forall k, d | k in accepted && d in invalid ensures k.dir != d {
      var a :| 0 <= a < |accepted| && accepted[a] == k;
      AcceptedDirsAreValid(kits, invalidDirs, a, d);
    }
  }
}
