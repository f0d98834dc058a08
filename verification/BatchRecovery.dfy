/** What New makes of the store a dead process left behind. */
module BatchRecovery {
  import opened Prelude
  import opened BatchTypes
  import opened BatchStore
  import opened BatchProtocol

  /** The first n rows after recovery: written stale rows are interrupted, all others untouched. */
  ghost predicate Repaired(before: seq<RunResult>, after: seq<RunResult>, n: int, now: Time, wrote: set<nat>) {
    && |after| == |before|
    && forall i :: 0 <= i < |before| ==>
         after[i] == if i < n && Stale(before[i]) && i in wrote then Interrupted(before[i], now) else before[i]
  }

  lemma {:induction false} UpsertStaleRepairs(rows: seq<RunResult>, n: nat, id: RunId, servers: seq<ServerId>, now: Time,
                                              wrote: set<nat>)
    requires n <= |rows| && RowsFor(rows, id, servers) && Distinct(servers)
    ensures Repaired(rows, UpsertStale(rows, rows[..n], now, wrote), n, now, wrote)
    ensures RowsFor(UpsertStale(rows, rows[..n], now, wrote), id, servers)
    decreases n
  {
    if n > 0 {
      assert rows[..n][..n - 1] == rows[..n - 1];
      UpsertStaleRepairs(rows, n - 1, id, servers, now, wrote);
      var t := UpsertStale(rows, rows[..n - 1], now, wrote);
      UpsertInPlace(t, Interrupted(rows[n - 1], now), id, servers, n - 1);
    }
  }

  /** Recovery of a sound store, however many of its statements succeed, is row-wise repair. */
  lemma RecoverRepairs(db: Db, targets: map<RunId, seq<ServerId>>, now: Time, wrote: set<nat>, marked: bool)
    requires Sound(db, targets)
    ensures Sound(Recover(db, now, wrote, marked), targets)
    ensures db.runs == [] || db.runs[0].status == RunDone ==> Recover(db, now, wrote, marked) == db
    ensures db.runs != [] && db.runs[0].status == RunRunning ==>
      var after := Recover(db, now, wrote, marked);
      && after.runs == (if marked then [db.runs[0].(status := RunDone)] else db.runs)
      && Repaired(db.results, after.results, |db.results|, now, wrote)
  {
    if db.runs != [] {
      assert db.runs[..0] == [];
      assert Latest(db.runs) == Some(db.runs[0]);
      if db.runs[0].status == RunRunning {
        var id := db.runs[0].id;
        ListAll(db.results, id);
        assert db.results[..|db.results|] == db.results;
        UpsertStaleRepairs(db.results, |db.results|, id, targets[id], now, wrote);
      }
    }
  }

  /**
   * Crash recovery: from any sound store, a recovery whose statements succeed leaves no run running;
   * finished results keep every field, unfinished ones keep their output and become
   * failed/interrupted, but only in a run that was still marked running: in a finished run they stay
   * as they are. The next dispatch is accepted.
   */
  lemma RecoveryCompletes(db: Db, targets: map<RunId, seq<ServerId>>, now: Time, wrote: set<nat>)
    requires Sound(db, targets)
    requires forall i :: 0 <= i < |db.results| ==> i in wrote
    ensures var after := Recover(db, now, wrote, true);
      && (forall i :: 0 <= i < |after.runs| ==> after.runs[i].status == RunDone)
      && |after.results| == |db.results|
      && (forall i :: 0 <= i < |db.results| && Terminal(db.results[i].status) ==> after.results[i] == db.results[i])
      && (forall i :: 0 <= i < |db.results| && !Terminal(db.results[i].status) ==>
            after.results[i] == if db.runs[0].status == RunRunning
                                then db.results[i].(status := Failed, error := "interrupted by restart", finishedAt := Some(now))
                                else db.results[i])
      && forall run, rows :: Replace(after, run, rows).Ok?
  {
    RecoverRepairs(db, targets, now, wrote, true);
    forall run, rows ensures Replace(Recover(db, now, wrote, true), run, rows).Ok? {
      NoneRunningAccepts(Recover(db, now, wrote, true), run, rows);
    }
  }

  /** The store takes a dispatch when no run in it is running. */
  lemma NoneRunningAccepts(db: Db, run: BatchRun, rows: seq<RunResult>)
    requires forall i :: 0 <= i < |db.runs| ==> db.runs[i].status == RunDone
    ensures Replace(db, run, rows).Ok?
  {
    LatestIsNewest(db.runs);
  }

  /**
   * finalizeStaleRun as the service runs it, statement by statement, with the store failing where
   * `healthy` says so.
   */
  method FinalizeStaleRun(store: BatchTables, now: Time, loads: bool, healthy: set<nat>, marks: bool)
    modifies store
    ensures store.Contents()
         == if loads then Recover(old(store.Contents()), now, healthy, marks) else old(store.Contents())
  {
    if !loads {
      return;
    }
    var current := store.GetBatchRun();
    if current.Err? || current.value.status != RunRunning {
      return;
    }
    var run := current.value;
    var results := store.ListBatchRunResults(run.id);
    for i := 0 to |results|
      invariant store.runs == old(store.runs)
      invariant store.results == UpsertStale(old(store.results), results[..i], now, healthy)
    {
      assert results[..i + 1][..i] == results[..i];
      if Stale(results[i]) {
        var _ := store.UpdateBatchRunResult(Interrupted(results[i], now), i in healthy);
      }
    }
    assert results[..|results|] == results;
    var _ := store.SetBatchRunDone(run.id, marks);
  }
}
