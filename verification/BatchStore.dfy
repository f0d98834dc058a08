/** The two batch tables and their atomic statements. Rows are kept in rowid order. */
module BatchStore {
  import opened Prelude
  import opened BatchTypes

  datatype Db = Db(runs: seq<BatchRun>, results: seq<RunResult>)

  datatype StoreError = InProgress | NotFound | Unavailable

  predicate SameKey(a: RunResult, b: RunResult) {
    a.runId == b.runId && a.serverId == b.serverId
  }

  /** ORDER BY created_at DESC, rowid DESC LIMIT 1. */
  function Latest(runs: seq<BatchRun>): Option<BatchRun> {
    if runs == [] then None
    else match Latest(runs[..|runs| - 1])
      case None => Some(runs[|runs| - 1])
      case Some(r) => if r.createdAt <= runs[|runs| - 1].createdAt then Some(runs[|runs| - 1]) else Some(r)
  }

  /** INSERT ... ON CONFLICT (run_id, server_id) DO UPDATE: the row keeps its place. */
  function Upsert(rows: seq<RunResult>, r: RunResult): seq<RunResult> {
    if rows == [] then [r]
    else if SameKey(rows[0], r) then [r] + rows[1..]
    else [rows[0]] + Upsert(rows[1..], r)
  }

  function UpsertAll(rows: seq<RunResult>, rs: seq<RunResult>): seq<RunResult> {
    if rs == [] then rows else Upsert(UpsertAll(rows, rs[..|rs| - 1]), rs[|rs| - 1])
  }

  function Replace(db: Db, run: BatchRun, rs: seq<RunResult>): Result<Db, StoreError> {
    match Latest(db.runs)
    case Some(r) => if r.status == RunRunning then Err(InProgress) else Ok(Db([run], UpsertAll([], rs)))
    case None => Ok(Db([run], UpsertAll([], rs)))
  }

  /** How many statements the transaction issues: begin and check; then two deletes, the inserts, commit. */
  function Statements(db: Db, run: BatchRun, rs: seq<RunResult>): nat {
    if Replace(db, run, rs).Err? then 2 else 6 + |rs|
  }

  /** Statement n fails, counting from 0. */
  predicate FailsAt(failing: Option<nat>, n: nat) {
    failing == Some(n)
  }

  function SetDone(db: Db, id: RunId): Db {
    db.(runs := seq(|db.runs|, i requires 0 <= i < |db.runs| =>
      if db.runs[i].id == id then db.runs[i].(status := RunDone) else db.runs[i]))
  }

  function ListFor(rows: seq<RunResult>, id: RunId): seq<RunResult> {
    if rows == [] then []
    else if rows[|rows| - 1].runId == id then ListFor(rows[..|rows| - 1], id) + [rows[|rows| - 1]]
    else ListFor(rows[..|rows| - 1], id)
  }

  /** The rows are exactly one per target server of run id, in dispatch order. */
  ghost predicate RowsFor(rows: seq<RunResult>, id: RunId, servers: seq<ServerId>) {
    && |rows| == |servers|
    && forall i :: 0 <= i < |rows| ==> rows[i].runId == id && rows[i].serverId == servers[i]
  }

  /** What every reachable store satisfies: at most one run, and rows for exactly its targets. */
  ghost predicate Sound(db: Db, targets: map<RunId, seq<ServerId>>) {
    && |db.runs| <= 1
    && (db.runs == [] ==> db.results == [])
    && (db.runs != [] ==>
          && db.runs[0].id in targets
          && Distinct(targets[db.runs[0].id])
          && RowsFor(db.results, db.runs[0].id, targets[db.runs[0].id]))
  }

  /** Upserting a row whose key is the i-th one changes that row only. */
  lemma {:induction false} UpsertInPlace(rows: seq<RunResult>, r: RunResult, id: RunId, servers: seq<ServerId>, i: nat)
    requires RowsFor(rows, id, servers) && Distinct(servers)
    requires i < |rows| && r.runId == id && r.serverId == servers[i]
    ensures Upsert(rows, r) == rows[i := r]
    ensures RowsFor(Upsert(rows, r), id, servers)
    decreases |rows|
  {
    if i > 0 {
      assert servers[0] != servers[i];
      UpsertInPlace(rows[1..], r, id, servers[1..], i - 1);
      assert rows == [rows[0]] + rows[1..];
    }
  }

  /** Upserting a key that no row carries appends. */
  lemma {:induction false} UpsertFresh(rows: seq<RunResult>, r: RunResult)
    requires forall k :: 0 <= k < |rows| ==> !SameKey(rows[k], r)
    ensures Upsert(rows, r) == rows + [r]
    decreases |rows|
  {
    if rows != [] {
      assert !SameKey(rows[0], r);
      UpsertFresh(rows[1..], r);
    }
  }

  /** The row written is the first with its key; without one it is new at the end. */
  lemma {:induction false} UpsertAt(rows: seq<RunResult>, r: RunResult, i: nat)
    requires i <= |rows| && forall k :: 0 <= k < i ==> !SameKey(rows[k], r)
    requires i < |rows| ==> SameKey(rows[i], r)
    ensures Upsert(rows, r) == if i < |rows| then rows[i := r] else rows + [r]
    decreases |rows|
  {
    if i == |rows| {
      UpsertFresh(rows, r);
    } else if i > 0 {
      assert !SameKey(rows[0], r);
      UpsertAt(rows[1..], r, i - 1);
    }
  }

  /** Inserting distinct rows one by one into an empty table stores them in order. */
  lemma {:induction false} UpsertAllDistinct(rs: seq<RunResult>, id: RunId, servers: seq<ServerId>)
    requires RowsFor(rs, id, servers) && Distinct(servers)
    ensures UpsertAll([], rs) == rs
    decreases |rs|
  {
    if rs != [] {
      var n := |rs| - 1;
      UpsertAllDistinct(rs[..n], id, servers[..n]);
      forall k | 0 <= k < n ensures !SameKey(rs[..n][k], rs[n]) {
        assert servers[k] != servers[n];
      }
      UpsertFresh(rs[..n], rs[n]);
      assert rs == rs[..n] + [rs[n]];
    }
  }

  /** When all rows belong to the run, listing the run returns the table. */
  lemma {:induction false} ListAll(rows: seq<RunResult>, id: RunId)
    requires forall k :: 0 <= k < |rows| ==> rows[k].runId == id
    ensures ListFor(rows, id) == rows
    decreases |rows|
  {
    if rows != [] {
      ListAll(rows[..|rows| - 1], id);
      assert rows == rows[..|rows| - 1] + [rows[|rows| - 1]];
    }
  }

  /** The picked rows are those of the run, at these places of the table, in its order. */
  ghost predicate Picks(rows: seq<RunResult>, id: RunId, picked: seq<RunResult>, places: seq<nat>) {
    && |picked| == |places|
    && (forall i :: 0 <= i < |places| ==> places[i] < |rows| && picked[i] == rows[places[i]])
    && (forall i, j :: 0 <= i < j < |places| ==> places[i] < places[j])
    && (forall k :: 0 <= k < |rows| ==> (rows[k].runId == id <==> k in places))
  }

  lemma {:induction false} ListForPicks(rows: seq<RunResult>, id: RunId) returns (places: seq<nat>)
    ensures Picks(rows, id, ListFor(rows, id), places)
    decreases |rows|
  {
    places := [];
    if rows != [] {
      var n := |rows| - 1;
      places := ListForPicks(rows[..n], id);
      if rows[n].runId == id {
        places := places + [n];
      }
    }
  }

  /** Row i is the newest: nothing was created later, and nothing as late has a larger rowid. */
  ghost predicate Newest(runs: seq<BatchRun>, i: int) {
    && 0 <= i < |runs|
    && (forall k :: 0 <= k < |runs| ==> runs[k].createdAt <= runs[i].createdAt)
    && (forall k :: i < k < |runs| ==> runs[k].createdAt < runs[i].createdAt)
  }

  /** The query picks the newest row of a non-empty table. */
  lemma {:induction false} LatestIsNewest(runs: seq<BatchRun>)
    ensures Latest(runs).None? <==> runs == []
    ensures runs != [] ==> exists i :: Newest(runs, i) && runs[i] == Latest(runs).value
  {
    if runs != [] {
      var n := |runs| - 1;
      LatestIsNewest(runs[..n]);
      if runs[..n] == [] {
        assert Newest(runs, 0);
      } else {
        var i :| Newest(runs[..n], i) && runs[..n][i] == Latest(runs[..n]).value;
        NewestSnoc(runs, i);
      }
    }
  }

  lemma NewestSnoc(runs: seq<BatchRun>, i: int)
    requires runs != [] && Newest(runs[..|runs| - 1], i)
    ensures Newest(runs, if runs[i].createdAt <= runs[|runs| - 1].createdAt then |runs| - 1 else i)
  {
    assert forall k :: 0 <= k < |runs| - 1 ==> runs[k] == runs[..|runs| - 1][k];
  }

  /** The SQLite tables, updated in place by single statements or one transaction. */
  class BatchTables {
    var runs: seq<BatchRun>
    var results: seq<RunResult>

    function Contents(): Db reads this { Db(runs, results) }

    constructor ()
      ensures Contents() == Db([], [])
    {
      runs, results := [], [];
    }

    method GetBatchRun() returns (r: Result<BatchRun, StoreError>)
      ensures r == match Latest(runs) case Some(run) => Ok(run) case None => Err(NotFound)
    {
      var best: Option<BatchRun> := None;
      for i := 0 to |runs|
        invariant best == Latest(runs[..i])
      {
        assert runs[..i + 1][..i] == runs[..i];
        match best {
          case None => best := Some(runs[i]);
          case Some(b) =>
            if b.createdAt <= runs[i].createdAt {
              best := Some(runs[i]);
            }
        }
      }
      assert runs[..|runs|] == runs;
      r := match best case Some(run) => Ok(run) case None => Err(NotFound);
    }

    method ListBatchRunResults(id: RunId) returns (rs: seq<RunResult>)
      ensures rs == ListFor(results, id) && exists places :: Picks(results, id, rs, places)
    {
      rs := [];
      for i := 0 to |results|
        invariant rs == ListFor(results[..i], id)
      {
        assert results[..i + 1][..i] == results[..i];
        if results[i].runId == id {
          rs := rs + [results[i]];
        }
      }
      assert results[..|results|] == results;
      var places := ListForPicks(results, id);
    }

    /** The upsert statement; a failing store leaves the table alone. */
    method UpdateBatchRunResult(r: RunResult, healthy: bool) returns (ok: bool)
      modifies this`results
      ensures ok == healthy
      ensures results == if ok then Upsert(old(results), r) else old(results)
    {
      ok := healthy;
      if healthy {
        var i := 0;
        while i < |results| && !SameKey(results[i], r)
          invariant 0 <= i <= |results|
          invariant forall k :: 0 <= k < i ==> !SameKey(results[k], r)
        {
          i := i + 1;
        }
        UpsertAt(results, r, i);
        results := if i < |results| then results[i := r] else results + [r];
      }
    }

    /**
     * One transaction: check the most recent run, clear both tables, insert the new rows, commit. If a
     * statement fails on the way, everything is rolled back.
     */
    method ReplaceBatchRun(run: BatchRun, rs: seq<RunResult>, failing: Option<nat>)
      returns (r: Result<BatchRun, StoreError>)
      modifies this
      ensures
        if failing.Some? && failing.value < Statements(old(Contents()), run, rs)
        then r == Err(Unavailable) && Contents() == old(Contents())
        else match Replace(old(Contents()), run, rs)
             case Ok(db) => r == Ok(run) && Contents() == db
             case Err(e) => r == Err(e) && Contents() == old(Contents())
    {
      if FailsAt(failing, 0) || FailsAt(failing, 1) {
        return Err(Unavailable);
      }
      var latest := GetBatchRun();
      if latest.Ok? && latest.value.status == RunRunning {
        return Err(InProgress);
      }
      var before := Contents();
      var ok := FillTables(run, rs, failing);
      if !ok {
        runs, results := before.runs, before.results;
        return Err(Unavailable);
      }
      r := Ok(run);
    }

    /** The statements after the check, as far as they succeed. */
    method FillTables(run: BatchRun, rs: seq<RunResult>, failing: Option<nat>) returns (ok: bool)
      requires failing.Some? ==> failing.value >= 2
      modifies this
      ensures ok <==> !(failing.Some? && failing.value < 6 + |rs|)
      ensures ok ==> Contents() == Db([run], UpsertAll([], rs))
    {
      if FailsAt(failing, 2) {
        return false;
      }
      results := [];
      if FailsAt(failing, 3) {
        return false;
      }
      runs := [];
      if FailsAt(failing, 4) {
        return false;
      }
      runs := [run];
      for i := 0 to |rs|
        invariant runs == [run] && results == UpsertAll([], rs[..i])
        invariant failing.Some? ==> failing.value >= 5 + i
      {
        assert rs[..i + 1][..i] == rs[..i];
        ok := UpdateBatchRunResult(rs[i], !FailsAt(failing, 5 + i));
        if !ok {
          return false;
        }
      }
      assert rs[..|rs|] == rs;
      return !FailsAt(failing, 5 + |rs|);
    }

    method SetBatchRunDone(id: RunId, healthy: bool) returns (ok: bool)
      modifies this`runs
      ensures ok == healthy
      ensures Contents() == if ok then SetDone(old(Contents()), id) else old(Contents())
      ensures results == old(results) && |runs| == |old(runs)|
      ensures forall i :: 0 <= i < |runs| ==>
        runs[i] == if ok && old(runs)[i].id == id then old(runs)[i].(status := RunDone) else old(runs)[i]
    {
      ok := healthy;
      if healthy {
        runs := SetDone(Db(runs, results), id).runs;
      }
    }
  }
}
