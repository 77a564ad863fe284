/**
 The durable list of sub-agent tasks: one row per task, in the order the tasks were started.
 */
module TaskLedger {
  import opened Basics

  const MAX_FINISHED_TASKS: nat := 200

  datatype Status = Queued | Running | Done | Failed | Cancelled | Interrupted | BudgetExhausted | Timeout
  {
    predicate IsOpen() {
      Queued? || Running?
    }
  }

  datatype Callback = Pending | Sent | Undelivered | Suppressed

  datatype Row = Row(
    id: nat,
    session: string,
    status: Status,
    callback: Callback,
    turns: nat,
    tokens: nat,
    error: Option<string>)
  {
    function Closed(status: Status, turns: nat, tokens: nat, error: Option<string>): Row {
      this.(status := status, turns := turns, tokens := tokens, error := error)
    }

    function InterruptedBy(error: string): Row {
      this.(status := Interrupted, error := Some(error))
    }
  }

  // ---------------------------------------------------------------- what the operations mean

  function Ids(rows: seq<Row>): set<nat> {
    set i | 0 <= i < |rows| :: rows[i].id
  }

  function OpenIds(rows: seq<Row>): set<nat> {
    set i | 0 <= i < |rows| && rows[i].status.IsOpen() :: rows[i].id
  }

  ghost predicate DistinctIds(rows: seq<Row>) {
    forall i, j :: 0 <= i < j < |rows| ==> rows[i].id != rows[j].id
  }

  /** Every row of `id`, if one is still kept, says this. */
  ghost predicate RowsSay(rows: seq<Row>, id: nat, status: Status, callback: Callback) {
    forall i :: 0 <= i < |rows| && rows[i].id == id ==> rows[i].status == status && rows[i].callback == callback
  }

  function NewRow(id: nat, session: string): Row {
    Row(id, session, Running, Pending, 0, 0, None)
  }

  /** The index of the first row of `id`, or |rows|. */
  function Find(rows: seq<Row>, id: nat): (k: nat)
    ensures k <= |rows|
    ensures k < |rows| ==> rows[k].id == id
    ensures forall i :: 0 <= i < k ==> rows[i].id != id
  {
    if rows == [] || rows[0].id == id then 0 else 1 + Find(rows[1..], id)
  }

  function FinishedRows(rows: seq<Row>, id: nat, status: Status, turns: nat, tokens: nat,
          error: Option<string>): seq<Row> {
    var k := Find(rows, id);
    if k < |rows| then rows[k := rows[k].Closed(status, turns, tokens, error)] else rows
  }

  function WithCallback(rows: seq<Row>, id: nat, callback: Callback): seq<Row> {
    var k := Find(rows, id);
    if k < |rows| then rows[k := rows[k].(callback := callback)] else rows
  }

  function AllInterrupted(rows: seq<Row>, error: string): seq<Row> {
    seq(|rows|, i requires 0 <= i < |rows| => if rows[i].status.IsOpen() then rows[i].InterruptedBy(error) else rows[i])
  }

  /** The open rows, as they look once interrupted. */
  function Interruptions(rows: seq<Row>, error: string): seq<Row> {
    if rows == [] then []
    else (if rows[0].status.IsOpen() then [rows[0].InterruptedBy(error)] else []) + Interruptions(rows[1..], error)
  }

  function OpenRows(rows: seq<Row>): seq<Row> {
    if rows == [] then [] else (if rows[0].status.IsOpen() then [rows[0]] else []) + OpenRows(rows[1..])
  }

  function CountFinished(rows: seq<Row>): nat {
    if rows == [] then 0 else (if rows[0].status.IsOpen() then 0 else 1) + CountFinished(rows[1..])
  }

  /** The open rows and the `keep` newest of the others, in their order. */
  function Newest(rows: seq<Row>, keep: nat): seq<Row> {
    if rows == [] then []
    else (if rows[0].status.IsOpen() || CountFinished(rows) <= keep then [rows[0]] else []) + Newest(rows[1..], keep)
  }

  function Pruned(rows: seq<Row>): seq<Row> {
    Newest(rows, MAX_FINISHED_TASKS)
  }

  // ---------------------------------------------------------------- laws

  lemma {:induction false} NewestKeepsShortLists(rows: seq<Row>, keep: nat)
    requires CountFinished(rows) <= keep
    ensures Newest(rows, keep) == rows
  {
    if rows != [] {
      NewestKeepsShortLists(rows[1..], keep);
    }
  }

  /** Pruning drops no open row and leaves exactly the smaller of `keep` and the number of finished rows. */
  lemma {:induction false} NewestCounts(rows: seq<Row>, keep: nat)
    ensures CountFinished(Newest(rows, keep)) == if CountFinished(rows) <= keep then CountFinished(rows) else keep
    ensures OpenRows(Newest(rows, keep)) == OpenRows(rows)
  {
    if rows != [] {
      NewestCounts(rows[1..], keep);
      var rest := Newest(rows[1..], keep);
      if rows[0].status.IsOpen() || CountFinished(rows) <= keep {
        assert Newest(rows, keep) == [rows[0]] + rest;
        assert ([rows[0]] + rest)[1..] == rest;
      } else {
        assert Newest(rows, keep) == rest;
      }
    }
  }

  /** A second pruning changes nothing. */
  lemma PruneIsIdempotent(rows: seq<Row>)
    ensures Pruned(Pruned(rows)) == Pruned(rows)
  {
    NewestCounts(rows, MAX_FINISHED_TASKS);
    NewestKeepsShortLists(Pruned(rows), MAX_FINISHED_TASKS);
  }

  lemma {:induction false} NewestMembers(rows: seq<Row>, keep: nat)
    ensures forall r :: r in Newest(rows, keep) ==> r in rows
    ensures forall r :: r in rows && r.status.IsOpen() ==> r in Newest(rows, keep)
    ensures DistinctIds(rows) ==> DistinctIds(Newest(rows, keep))
  {
    if rows != [] {
      var rest := Newest(rows[1..], keep);
      NewestMembers(rows[1..], keep);
      forall r | r in rest ensures r in rows[1..] {}
      if DistinctIds(rows) {
        forall r | r in rest ensures r.id != rows[0].id {}
      }
    }
  }

  lemma OpenIdsMeaning(rows: seq<Row>)
    ensures forall id: nat :: id in OpenIds(rows) <==> exists r :: r in rows && r.id == id && r.status.IsOpen()
    ensures forall id: nat :: id in Ids(rows) <==> exists r :: r in rows && r.id == id
  {
    forall id: nat | id in OpenIds(rows) ensures exists r :: r in rows && r.id == id && r.status.IsOpen() {
      var i :| 0 <= i < |rows| && rows[i].status.IsOpen() && rows[i].id == id;
      assert rows[i] in rows;
    }
    forall id: nat | id in Ids(rows) ensures exists r :: r in rows && r.id == id {
      var i :| 0 <= i < |rows| && rows[i].id == id;
      assert rows[i] in rows;
    }
  }

  lemma PruneKeepsOpen(rows: seq<Row>)
    requires DistinctIds(rows)
    ensures var p := Pruned(rows);
            DistinctIds(p) && OpenIds(p) == OpenIds(rows) && Ids(p) <= Ids(rows)
    ensures forall id: nat, status, callback ::
              RowsSay(rows, id, status, callback) ==> RowsSay(Pruned(rows), id, status, callback)
  {
    var p := Pruned(rows);
    NewestMembers(rows, MAX_FINISHED_TASKS);
    OpenIdsMeaning(rows);
    OpenIdsMeaning(p);
    forall id: nat ensures id in OpenIds(p) <==> id in OpenIds(rows) {}
    forall id: nat, status, callback | RowsSay(rows, id, status, callback)
      ensures RowsSay(p, id, status, callback)
    {
      forall i | 0 <= i < |p| && p[i].id == id ensures p[i].status == status && p[i].callback == callback {
        assert p[i] in rows;
      }
    }
  }

  lemma StartOpensOne(rows: seq<Row>, id: nat, session: string)
    requires DistinctIds(rows) && id !in Ids(rows)
    ensures var r := rows + [NewRow(id, session)];
            DistinctIds(r) && OpenIds(r) == OpenIds(rows) + {id} && Ids(r) == Ids(rows) + {id}
    ensures forall jd: nat, status, callback ::
              jd != id && RowsSay(rows, jd, status, callback) ==>
                RowsSay(rows + [NewRow(id, session)], jd, status, callback)
  {
    var r := rows + [NewRow(id, session)];
    assert r[|rows|].id == id;
    forall i | 0 <= i < |rows| ensures r[i] == rows[i] && rows[i].id in Ids(rows) {}
    forall jd: nat ensures jd in OpenIds(r) <==> jd in OpenIds(rows) + {id} {
      if jd in OpenIds(rows) {
        var i :| 0 <= i < |rows| && rows[i].status.IsOpen() && rows[i].id == jd;
        assert r[i].id == jd;
      }
    }
    forall jd: nat ensures jd in Ids(r) <==> jd in Ids(rows) + {id} {
      if jd in Ids(rows) {
        var i :| 0 <= i < |rows| && rows[i].id == jd;
        assert r[i].id == jd;
      }
    }
  }

  lemma StartSaysRunning(rows: seq<Row>, id: nat, session: string)
    requires id !in Ids(rows)
    ensures RowsSay(rows + [NewRow(id, session)], id, Running, Pending)
  {
    assert forall i :: 0 <= i < |rows| ==> rows[i].id in Ids(rows);
  }

  lemma UpdateKeepsIds(rows: seq<Row>, k: nat, row: Row)
    requires DistinctIds(rows) && k < |rows| && row.id == rows[k].id
    ensures DistinctIds(rows[k := row]) && Ids(rows[k := row]) == Ids(rows)
    ensures OpenIds(rows[k := row]) == if row.status.IsOpen() then OpenIds(rows) + {row.id}
              else OpenIds(rows) - {row.id}
    ensures RowsSay(rows[k := row], row.id, row.status, row.callback)
    ensures forall jd: nat, status, callback ::
              jd != row.id && RowsSay(rows, jd, status, callback) ==> RowsSay(rows[k := row], jd, status, callback)
  {
    var r := rows[k := row];
    forall i | 0 <= i < |rows| ensures r[i].id == rows[i].id && (i != k ==> r[i] == rows[i]) {}
    forall jd: nat ensures jd in Ids(r) <==> jd in Ids(rows) {
      if jd in Ids(rows) {
        var i :| 0 <= i < |rows| && rows[i].id == jd;
        assert r[i].id == jd;
      }
    }
    forall jd: nat | jd != row.id ensures jd in OpenIds(r) <==> jd in OpenIds(rows) {
      if jd in OpenIds(rows) {
        var i :| 0 <= i < |rows| && rows[i].status.IsOpen() && rows[i].id == jd;
        assert r[i].id == jd;
      }
    }
    assert row.status.IsOpen() ==> r[k].id in OpenIds(r);
  }

  /** Closing a row closes that task alone; an unknown id changes nothing. */
  lemma FinishClosesOne(rows: seq<Row>, id: nat, status: Status, turns: nat, tokens: nat, error: Option<string>)
    requires DistinctIds(rows) && !status.IsOpen()
    ensures var r := FinishedRows(rows, id, status, turns, tokens, error);
            && DistinctIds(r) && Ids(r) == Ids(rows) && OpenIds(r) == OpenIds(rows) - {id}
            && (forall i :: 0 <= i < |r| && r[i].id == id ==> r[i].status == status)
            && (forall jd: nat, status, callback ::
                  jd != id && RowsSay(rows, jd, status, callback) ==> RowsSay(r, jd, status, callback))
  {
    var k := Find(rows, id);
    if k < |rows| {
      UpdateKeepsIds(rows, k, rows[k].Closed(status, turns, tokens, error));
    }
  }

  lemma CallbackKeepsStatus(rows: seq<Row>, id: nat, callback: Callback)
    requires DistinctIds(rows)
    ensures var r := WithCallback(rows, id, callback);
            && DistinctIds(r) && Ids(r) == Ids(rows) && OpenIds(r) == OpenIds(rows)
            && (forall i :: 0 <= i < |r| && r[i].id == id ==> r[i].callback == callback)
            && (forall status, before :: RowsSay(rows, id, status, before) ==> RowsSay(r, id, status, callback))
            && (forall jd: nat, status, callback ::
                  jd != id && RowsSay(rows, jd, status, callback) ==> RowsSay(r, jd, status, callback))
  {
    var k := Find(rows, id);
    if k < |rows| {
      UpdateKeepsIds(rows, k, rows[k].(callback := callback));
      assert rows[k].status.IsOpen() <==> id in OpenIds(rows);
    }
  }

  lemma InterruptClosesAll(rows: seq<Row>, error: string)
    requires DistinctIds(rows)
    ensures var r := AllInterrupted(rows, error);
            && DistinctIds(r) && Ids(r) == Ids(rows) && OpenIds(r) == {}
            && forall jd: nat, status: Status, callback ::
                 !status.IsOpen() && RowsSay(rows, jd, status, callback) ==> RowsSay(r, jd, status, callback)
  {
    var r := AllInterrupted(rows, error);
    forall i | 0 <= i < |rows| ensures r[i].id == rows[i].id && !r[i].status.IsOpen() {}
    forall jd: nat ensures jd in Ids(r) <==> jd in Ids(rows) {
      if jd in Ids(rows) {
        var i :| 0 <= i < |rows| && rows[i].id == jd;
        assert r[i].id == jd;
      }
    }
  }

  function IdsInOrder(rows: seq<Row>): (ids: seq<nat>)
    ensures |ids| == |rows|
    ensures forall i :: 0 <= i < |rows| ==> ids[i] == rows[i].id
  {
    seq(|rows|, i requires 0 <= i < |rows| => rows[i].id)
  }

  lemma IdsOfCons(row: Row, rows: seq<Row>)
    ensures Ids([row] + rows) == Ids(rows) + {row.id}
    ensures OpenIds([row] + rows) == OpenIds(rows) + if row.status.IsOpen() then {row.id} else {}
  {
    var r := [row] + rows;
    assert r[0] == row;
    assert forall i :: 0 <= i < |rows| ==> rows[i] == r[i + 1];
    forall id: nat ensures id in Ids(r) <==> id in Ids(rows) + {row.id} {
      if id in Ids(rows) {
        var i :| 0 <= i < |rows| && rows[i].id == id;
        assert r[i + 1].id == id;
      }
    }
    forall id: nat | id in OpenIds(rows) ensures id in OpenIds(r) {
      var i :| 0 <= i < |rows| && rows[i].status.IsOpen() && rows[i].id == id;
      assert r[i + 1].id == id;
    }
  }

  lemma DistinctCons(row: Row, rows: seq<Row>)
    ensures DistinctIds([row] + rows) <==> DistinctIds(rows) && row.id !in Ids(rows)
  {
    var r := [row] + rows;
    if DistinctIds(r) {
      forall i, j | 0 <= i < j < |rows| ensures rows[i].id != rows[j].id {
        assert r[i + 1].id != r[j + 1].id;
      }
      forall i | 0 <= i < |rows| ensures rows[i].id != row.id {
        assert r[0].id != r[i + 1].id;
      }
    }
    if DistinctIds(rows) && row.id !in Ids(rows) {
      forall i | 0 <= i < |rows| ensures rows[i].id != row.id {
        assert rows[i].id in Ids(rows);
      }
    }
  }

  lemma OpenIdsAreIds(rows: seq<Row>)
    ensures OpenIds(rows) <= Ids(rows)
  {}

  /** The interrupted rows are those that were open, each once. */
  lemma {:induction false} InterruptionsAreTheOpenRows(rows: seq<Row>, error: string)
    requires DistinctIds(rows)
    ensures var changed := Interruptions(rows, error);
            && DistinctIds(changed) && Ids(changed) == OpenIds(rows)
            && forall i :: 0 <= i < |changed| ==> changed[i].status == Interrupted && changed[i].error == Some(error)
  {
    if rows != [] {
      assert rows == [rows[0]] + rows[1..];
      IdsOfCons(rows[0], rows[1..]);
      DistinctCons(rows[0], rows[1..]);
      OpenIdsAreIds(rows[1..]);
      InterruptionsAreTheOpenRows(rows[1..], error);
      var tail := Interruptions(rows[1..], error);
      IdsOfCons(rows[0].InterruptedBy(error), tail);
      DistinctCons(rows[0].InterruptedBy(error), tail);
      if rows[0].status.IsOpen() {
        assert Interruptions(rows, error) == [rows[0].InterruptedBy(error)] + tail;
      } else {
        assert Interruptions(rows, error) == tail;
      }
    }
  }

  /** One more row from `i` on, after what was collected before it. */
  lemma InterruptionsFrom(rows: seq<Row>, error: string, i: nat, before: seq<Row>)
    requires i < |rows|
    ensures before + Interruptions(rows[i..], error) ==
            (if rows[i].status.IsOpen() then before + [rows[i].InterruptedBy(error)] else before)
            + Interruptions(rows[i + 1..], error)
  {
    assert rows[i..][0] == rows[i] && rows[i..][1..] == rows[i + 1..];
  }

  // ---------------------------------------------------------------- what the operations leave, row by row

  /** `picked` are the rows at exactly these indices, in their order. */
  ghost predicate Picks(picked: seq<Row>, rows: seq<Row>, which: set<nat>) {
    exists ks :: PicksAt(picked, rows, which, ks)
  }

  ghost predicate PicksAt(picked: seq<Row>, rows: seq<Row>, which: set<nat>, ks: seq<nat>) {
    && |ks| == |picked|
    && (forall m :: 0 <= m < |ks| ==> ks[m] < |rows| && picked[m] == rows[ks[m]])
    && (forall m, n :: 0 <= m < n < |ks| ==> ks[m] < ks[n])
    && (forall k :: k in ks <==> k in which)
  }

  predicate IsUnfinished(row: Row) {
    row.status.Queued? || row.status.Running?
  }

  function UnfinishedFrom(rows: seq<Row>, i: nat): set<nat> {
    set j: nat | i <= j < |rows| && IsUnfinished(rows[j])
  }

  function FinishedFrom(rows: seq<Row>, i: nat): set<nat> {
    set j: nat | i <= j < |rows| && !IsUnfinished(rows[j])
  }

  /** What a limit of `keep` finished rows leaves: the unfinished ones, and those with fewer than `keep` finished after
      them. */
  function KeptFrom(rows: seq<Row>, keep: nat, i: nat): set<nat> {
    set j: nat | i <= j < |rows| && (IsUnfinished(rows[j]) || |FinishedFrom(rows, j + 1)| < keep)
  }

  /** The row that an update of `id` goes to. */
  predicate IsFirst(rows: seq<Row>, id: nat, i: nat) {
    i < |rows| && rows[i].id == id && forall j :: 0 <= j < i ==> rows[j].id != id
  }

  lemma PicksPrepend(picked: seq<Row>, rows: seq<Row>, which: set<nat>, i: nat)
    requires Picks(picked, rows, which) && i < |rows| && forall k :: k in which ==> i < k
    ensures Picks([rows[i]] + picked, rows, which + {i})
  {
    var ks :| PicksAt(picked, rows, which, ks);
    var more := [i] + ks;
    forall m | 0 <= m < |more| ensures more[m] < |rows| && ([rows[i]] + picked)[m] == rows[more[m]] {
      assert m > 0 ==> more[m] == ks[m - 1];
    }
    forall m, n | 0 <= m < n < |more| ensures more[m] < more[n] {
      assert more[n] == ks[n - 1] && ks[n - 1] in ks && (m > 0 ==> more[m] == ks[m - 1]);
    }
    assert forall k :: k in more <==> k == i || k in ks;
    assert PicksAt([rows[i]] + picked, rows, which + {i}, more);
  }

  /** One more row at the front, picked or not. */
  lemma PicksNext(picked: seq<Row>, rows: seq<Row>, which: set<nat>, i: nat, take: bool)
    requires Picks(picked, rows, which) && i < |rows| && forall k :: k in which ==> i < k
    ensures Picks((if take then [rows[i]] else []) + picked, rows, which + if take then {i} else {})
  {
    if take {
      PicksPrepend(picked, rows, which, i);
    } else {
      assert [] + picked == picked && which + {} == which;
    }
  }

  lemma {:induction false} CountMeans(rows: seq<Row>, i: nat)
    requires i <= |rows|
    ensures CountFinished(rows[i..]) == |FinishedFrom(rows, i)|
    decreases |rows| - i
  {
    if i < |rows| {
      CountMeans(rows, i + 1);
      assert rows[i..][1..] == rows[i + 1..];
      assert FinishedFrom(rows, i) == FinishedFrom(rows, i + 1) + if IsUnfinished(rows[i]) then {} else {i};
    } else {
      assert FinishedFrom(rows, i) == {};
    }
  }

  /** A finished row is within the limit, counted from itself on, if fewer than the limit come after it. */
  lemma LimitCounts(rows: seq<Row>, keep: nat, i: nat)
    requires i < |rows| && !IsUnfinished(rows[i])
    ensures CountFinished(rows[i..]) <= keep <==> |FinishedFrom(rows, i + 1)| < keep
  {
    CountMeans(rows, i);
    assert FinishedFrom(rows, i) == FinishedFrom(rows, i + 1) + {i};
  }

  lemma NewestStep(rows: seq<Row>, keep: nat, i: nat)
    requires i < |rows|
    ensures var kept := IsUnfinished(rows[i]) || |FinishedFrom(rows, i + 1)| < keep;
            Newest(rows[i..], keep) == (if kept then [rows[i]] else []) + Newest(rows[i + 1..], keep)
  {
    assert rows[i..][0] == rows[i] && rows[i..][1..] == rows[i + 1..];
    if !IsUnfinished(rows[i]) {
      LimitCounts(rows, keep, i);
    }
  }

  lemma KeptStep(rows: seq<Row>, keep: nat, i: nat)
    requires i < |rows|
    ensures var kept := IsUnfinished(rows[i]) || |FinishedFrom(rows, i + 1)| < keep;
            KeptFrom(rows, keep, i) == KeptFrom(rows, keep, i + 1) + if kept then {i} else {}
  {}

  /** Pruning keeps exactly the unfinished rows and the newest finished ones, in their order. */
  lemma {:induction false} NewestPicks(rows: seq<Row>, keep: nat, i: nat)
    requires i <= |rows|
    ensures Picks(Newest(rows[i..], keep), rows, KeptFrom(rows, keep, i))
    decreases |rows| - i
  {
    if i == |rows| {
      assert PicksAt([], rows, KeptFrom(rows, keep, i), []);
    } else {
      NewestPicks(rows, keep, i + 1);
      NewestStep(rows, keep, i);
      KeptStep(rows, keep, i);
      PicksNext(Newest(rows[i + 1..], keep), rows, KeptFrom(rows, keep, i + 1), i,
                IsUnfinished(rows[i]) || |FinishedFrom(rows, i + 1)| < keep);
    }
  }

  lemma {:induction false} OpenRowsPick(rows: seq<Row>, i: nat)
    requires i <= |rows|
    ensures Picks(OpenRows(rows[i..]), rows, UnfinishedFrom(rows, i))
    decreases |rows| - i
  {
    if i == |rows| {
      assert PicksAt([], rows, UnfinishedFrom(rows, i), []);
    } else {
      OpenRowsPick(rows, i + 1);
      assert rows[i..][0] == rows[i] && rows[i..][1..] == rows[i + 1..];
      assert OpenRows(rows[i..]) == (if IsUnfinished(rows[i]) then [rows[i]] else []) + OpenRows(rows[i + 1..]);
      assert UnfinishedFrom(rows, i) == UnfinishedFrom(rows, i + 1) + if IsUnfinished(rows[i]) then {i} else {};
      PicksNext(OpenRows(rows[i + 1..]), rows, UnfinishedFrom(rows, i + 1), i, IsUnfinished(rows[i]));
    }
  }

  lemma {:induction false} InterruptionsPick(rows: seq<Row>, error: string, i: nat)
    requires i <= |rows|
    ensures Picks(Interruptions(rows[i..], error), AllInterrupted(rows, error), UnfinishedFrom(rows, i))
    decreases |rows| - i
  {
    var after := AllInterrupted(rows, error);
    if i == |rows| {
      assert PicksAt([], after, UnfinishedFrom(rows, i), []);
    } else {
      InterruptionsPick(rows, error, i + 1);
      assert rows[i..][0] == rows[i] && rows[i..][1..] == rows[i + 1..];
      assert Interruptions(rows[i..], error) ==
             (if IsUnfinished(rows[i]) then [after[i]] else []) + Interruptions(rows[i + 1..], error);
      assert UnfinishedFrom(rows, i) == UnfinishedFrom(rows, i + 1) + if IsUnfinished(rows[i]) then {i} else {};
      PicksNext(Interruptions(rows[i + 1..], error), after, UnfinishedFrom(rows, i + 1), i, IsUnfinished(rows[i]));
    }
  }

  lemma FirstIsFound(rows: seq<Row>, id: nat)
    ensures forall i :: IsFirst(rows, id, i) <==> i == Find(rows, id) < |rows|
  {}

  /** Of any two finished rows, the later one is kept if the earlier one is. */
  lemma NewerIsKept(rows: seq<Row>, keep: nat, i: nat, j: nat)
    requires i < j < |rows| && !IsUnfinished(rows[i]) && !IsUnfinished(rows[j]) && DistinctIds(rows)
    ensures rows[i] in Newest(rows, keep) ==> rows[j] in Newest(rows, keep)
  {
    assert rows[0..] == rows;
    NewestPicks(rows, keep, 0);
    PickedExactly(Newest(rows, keep), rows, KeptFrom(rows, keep, 0), i);
    PickedExactly(Newest(rows, keep), rows, KeptFrom(rows, keep, 0), j);
    SubsetSize(FinishedFrom(rows, j + 1), FinishedFrom(rows, i + 1));
  }

  lemma PickedExactly(picked: seq<Row>, rows: seq<Row>, which: set<nat>, i: nat)
    requires Picks(picked, rows, which) && i < |rows| && DistinctIds(rows)
    ensures rows[i] in picked <==> i in which
  {
    var ks :| PicksAt(picked, rows, which, ks);
    if rows[i] in picked {
      var m :| 0 <= m < |picked| && picked[m] == rows[i];
      assert ks[m] in ks && ks[m] == i;
    }
    if i in which {
      var m :| 0 <= m < |ks| && ks[m] == i;
      assert picked[m] == rows[i];
    }
  }

  lemma {:induction false} SubsetSize(a: set<nat>, b: set<nat>)
    requires a <= b
    ensures |a| <= |b|
  {
    if x :| x in a {
      SubsetSize(a - {x}, b - {x});
    }
  }

  // ---------------------------------------------------------------- the ledger itself

  class Ledger {
    var tasks: seq<Row>

    constructor (rows: seq<Row>)
      ensures tasks == rows
    {
      tasks := rows;
    }

    method StartTask(id: nat, session: string)
      modifies this
      ensures tasks == old(tasks) + [NewRow(id, session)]
      ensures tasks == old(tasks) + [Row(id, session, Running, Pending, 0, 0, None)]
      ensures old(DistinctIds(tasks)) && id !in old(Ids(tasks)) ==>
              DistinctIds(tasks) && OpenIds(tasks) == old(OpenIds(tasks)) + {id} && RowsSay(tasks, id, Running, Pending)
    {
      if DistinctIds(tasks) && id !in Ids(tasks) {
        StartOpensOne(tasks, id, session);
        StartSaysRunning(tasks, id, session);
      }
      tasks := tasks + [Row(id, session, Running, Pending, 0, 0, None)];
    }

    method FinishTask(id: nat, status: Status, turns: nat, tokens: nat, error: Option<string>)
      modifies this
      ensures tasks == FinishedRows(old(tasks), id, status, turns, tokens, error) && |tasks| == |old(tasks)|
      ensures forall i: nat :: i < |tasks| ==>
                tasks[i] == if IsFirst(old(tasks), id, i)
                            then Row(id, old(tasks)[i].session, status, old(tasks)[i].callback, turns, tokens, error)
                            else old(tasks)[i]
    {
      FirstIsFound(tasks, id);
      var i := 0;
      while i < |tasks|
        invariant 0 <= i <= |tasks| && tasks == old(tasks)
        invariant forall j :: 0 <= j < i ==> tasks[j].id != id
      {
        if tasks[i].id == id {
          tasks := tasks[i := tasks[i].(status := status, turns := turns, tokens := tokens, error := error)];
          return;
        }
        i := i + 1;
      }
    }

    method SetCallbackState(id: nat, callback: Callback)
      modifies this
      ensures tasks == WithCallback(old(tasks), id, callback) && |tasks| == |old(tasks)|
      ensures forall i: nat :: i < |tasks| ==>
                var row := old(tasks)[i];
                tasks[i] == if IsFirst(old(tasks), id, i)
                            then Row(id, row.session, row.status, callback, row.turns, row.tokens, row.error) else row
    {
      FirstIsFound(tasks, id);
      var i := 0;
      while i < |tasks|
        invariant 0 <= i <= |tasks| && tasks == old(tasks)
        invariant forall j :: 0 <= j < i ==> tasks[j].id != id
      {
        if tasks[i].id == id {
          tasks := tasks[i := tasks[i].(callback := callback)];
          return;
        }
        i := i + 1;
      }
    }

    method OpenTasks() returns (open: seq<Row>)
      ensures open == OpenRows(tasks) && Picks(open, tasks, UnfinishedFrom(tasks, 0))
    {
      OpenRowsPick(tasks, 0);
      assert tasks[0..] == tasks;
      open := [];
      var i := 0;
      while i < |tasks|
        invariant 0 <= i <= |tasks|
        invariant open + OpenRows(tasks[i..]) == OpenRows(tasks)
      {
        if tasks[i].status.IsOpen() {
          open := open + [tasks[i]];
        }
        i := i + 1;
      }
    }

    method InterruptOpenTasks(error: string) returns (changed: seq<Row>)
      modifies this
      ensures tasks == AllInterrupted(old(tasks), error)
      ensures changed == Interruptions(old(tasks), error) && |tasks| == |old(tasks)|
      ensures forall i :: 0 <= i < |tasks| ==>
                var row := old(tasks)[i];
                tasks[i] == if IsUnfinished(row)
                            then Row(row.id, row.session, Interrupted, row.callback, row.turns, row.tokens, Some(error))
                            else row
      ensures Picks(changed, tasks, UnfinishedFrom(old(tasks), 0))
    {
      InterruptionsPick(tasks, error, 0);
      assert tasks[0..] == tasks;
      changed := [];
      ghost var was := tasks;
      ghost var goal := AllInterrupted(was, error);
      var i := 0;
      while i < |tasks|
        invariant 0 <= i <= |tasks| == |was|
        invariant forall j :: 0 <= j < i ==> tasks[j] == goal[j]
        invariant forall j :: i <= j < |was| ==> tasks[j] == was[j]
        invariant changed + Interruptions(was[i..], error) == Interruptions(was, error)
      {
        InterruptionsFrom(was, error, i, changed);
        if tasks[i].status.IsOpen() {
          var row := tasks[i].(status := Interrupted, error := Some(error));
          tasks := tasks[i := row];
          changed := changed + [row];
        }
        i := i + 1;
      }
      assert tasks == goal;
    }

    method Prune()
      modifies this
      ensures tasks == Pruned(old(tasks)) && Picks(tasks, old(tasks), KeptFrom(old(tasks), 200, 0))
    {
      NewestPicks(tasks, MAX_FINISHED_TASKS, 0);
      assert tasks[0..] == tasks;
      var finished := 0;
      var i := 0;
      while i < |tasks|
        invariant 0 <= i <= |tasks| && tasks == old(tasks)
        invariant finished + CountFinished(tasks[i..]) == CountFinished(tasks)
      {
        if !tasks[i].status.IsOpen() {
          finished := finished + 1;
        }
        i := i + 1;
      }
      if finished <= MAX_FINISHED_TASKS {
        NewestKeepsShortLists(tasks, MAX_FINISHED_TASKS);
        return;
      }
      var toDrop := finished - MAX_FINISHED_TASKS;
      var kept := [];
      i := 0;
      while i < |tasks|
        invariant 0 <= i <= |tasks| && tasks == old(tasks)
        invariant toDrop == if CountFinished(tasks[i..]) > MAX_FINISHED_TASKS
                            then CountFinished(tasks[i..]) - MAX_FINISHED_TASKS else 0
        invariant kept + Newest(tasks[i..], MAX_FINISHED_TASKS) == Pruned(tasks)
      {
        assert tasks[i..][1..] == tasks[i + 1..];
        if toDrop > 0 && !tasks[i].status.IsOpen() {
          toDrop := toDrop - 1;
        } else {
          kept := kept + [tasks[i]];
        }
        i := i + 1;
      }
      tasks := kept;
    }
  }
}
