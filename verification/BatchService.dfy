/**
 * The service's own methods on the heap, each run without interruption: what one Dispatch, Cancel,
 * completion or Subscribe does to the current run, the tables, the sessions and the channels. Where
 * other goroutines may come in between is the protocol's matter.
 */
module BatchService {
  import opened Prelude
  import opened BatchTypes
  import opened BatchStore
  import opened BatchFanout
  import opened BatchSessions
  import P = BatchProtocol

  /** The in-memory state of a run. */
  class RunHandle {
    const run: BatchRun
    const table: RunSessions
    var results: seq<RunResult>
    var done: bool

    constructor (run: BatchRun, results: seq<RunResult>)
      ensures this.run == run && this.results == results && !done
      ensures fresh(table) && table.sessions == map[] && !table.cancelled
    {
      this.run, this.results, done := run, results, false;
      table := new RunSessions();
    }
  }

  class Service {
    const store: BatchTables
    const hub: Subscribers
    var current: RunHandle?

    ghost predicate Valid() reads this, hub, hub.subs {
      hub.Valid()
    }

    /** A run is in progress, as far as the memory knows. */
    predicate Busy() reads this, current {
      current != null && !current.done
    }

    constructor (store: BatchTables)
      ensures this.store == store && fresh(hub) && Valid() && current == null && hub.subs == {}
    {
      this.store, current := store, null;
      hub := new Subscribers();
    }

    /**
     * Dispatch: refused while a run is in progress, by the memory or by the store; a refused or failed
     * dispatch changes nothing. Otherwise the store holds exactly the new run, pending on every server,
     * and the caller gets copies of those rows.
     */
    method Dispatch(id: RunId, script: string, servers: seq<ServerId>, now: Time, failing: Option<nat>)
      returns (r: Result<(BatchRun, seq<RunResult>), StoreError>)
      modifies this`current, store
      ensures old(Busy()) ==> r == Err(InProgress)
      ensures
        var run, rows := BatchRun(id, script, RunRunning, now), P.NewResults(id, servers);
        var fails := failing.Some? && failing.value < Statements(old(store.Contents()), run, rows);
        !old(Busy()) && fails ==> r == Err(Unavailable)
      ensures
        var run, rows := BatchRun(id, script, RunRunning, now), P.NewResults(id, servers);
        var fails := failing.Some? && failing.value < Statements(old(store.Contents()), run, rows);
        !old(Busy()) && !fails ==>
        match Replace(old(store.Contents()), BatchRun(id, script, RunRunning, now), P.NewResults(id, servers))
        case Err(e) => r == Err(e)
        case Ok(db) =>
          && r == Ok((BatchRun(id, script, RunRunning, now), P.NewResults(id, servers)))
          && store.Contents() == db
          && current != null && fresh(current) && current.run == r.value.0 && current.results == r.value.1
          && !current.done && current.table.sessions == map[] && !current.table.cancelled
      ensures r.Err? ==> current == old(current) && store.Contents() == old(store.Contents())
      ensures r.Ok? ==> Busy()
    {
      if current != null && !current.done {
        return Err(InProgress);
      }
      var run, results := NewRun(id, script, servers, now);
      var replaced := store.ReplaceBatchRun(run, results, failing);
      if replaced.Err? {
        return Err(replaced.error);
      }
      current := new RunHandle(run, results);
      return Ok((run, results));
    }

    method NewRun(id: RunId, script: string, servers: seq<ServerId>, now: Time) returns (run: BatchRun, results: seq<RunResult>)
      ensures run == BatchRun(id, script, RunRunning, now) && results == P.NewResults(id, servers)
      ensures |results| == |servers|
      ensures forall i :: 0 <= i < |servers| ==>
        results[i] == RunResult(id, servers[i], Pending, None, [], false, "", None, None)
    {
      run := BatchRun(id, script, RunRunning, now);
      results := [];
      for i := 0 to |servers|
        invariant results == P.NewResults(id, servers[..i])
      {
        results := results + [PendingResult(id, servers[i])];
      }
      assert servers[..|servers|] == servers;
    }

    /**
     * waitForCompletion, once every execution has finalized: record the end in the store, admit the
     * next dispatch, and end every stream, whichever run it belongs to.
     */
    method Complete(rs: RunHandle, healthy: bool)
      requires Valid()
      modifies store, rs`done, hub, hub.subs
      ensures Valid() && rs.done && hub.subs == {}
      ensures store.Contents() == if healthy then SetDone(old(store.Contents()), rs.run.id) else old(store.Contents())
      ensures forall ch :: ch in old(hub.subs) ==> ch.closed && ch.buffer == old(ch.buffer)
      ensures rs == current ==> !Busy()
    {
      var _ := store.SetBatchRunDone(rs.run.id, healthy);
      rs.done := true;
      hub.CloseAll();
    }

    /** Cancel: nothing without a run in progress; else its context and every session registered with it. */
    method Cancel()
      modifies if Busy() then {current.table} + current.table.sessions.Values else {}
      ensures current != null ==> current.table.sessions == old(current.table.sessions)
      ensures Busy() ==>
        && current.table.cancelled
        && forall server :: server in current.table.sessions ==> !current.table.sessions[server].open
    {
      if current == null || current.done {
        return;
      }
      current.table.Cancel();
    }

    /** Subscribe: only to the current run, done or not; the channel starts empty. */
    method Subscribe(id: RunId) returns (r: Option<Channel>)
      requires Valid()
      modifies hub
      ensures Valid()
      ensures r.Some? <==> current != null && current.run.id == id
      ensures r.Some? ==> fresh(r.value) && r.value.buffer == [] && hub.subs == old(hub.subs) + {r.value}
      ensures r.None? ==> hub.subs == old(hub.subs)
    {
      if current == null || current.run.id != id {
        return None;
      }
      var ch := hub.Subscribe();
      return Some(ch);
    }

    /** The REST snapshot: the newest run with its rows. */
    method Current() returns (r: Result<(BatchRun, seq<RunResult>), StoreError>)
      ensures r == match Latest(store.runs)
                   case None => Err(NotFound)
                   case Some(run) => Ok((run, ListFor(store.results, run.id)))
    {
      var run := store.GetBatchRun();
      if run.Err? {
        return Err(run.error);
      }
      var rows := store.ListBatchRunResults(run.value.id);
      return Ok((run.value, rows));
    }
  }

  /**
   * A dispatch answered with rows and the snapshot read right after it agree, for distinct servers;
   * once the run is marked done the store admits the next dispatch, and not before.
   */
  lemma DispatchedThenRead(before: Db, run: BatchRun, servers: seq<ServerId>, next: BatchRun, rows: seq<RunResult>)
    requires Distinct(servers) && run.status == RunRunning
    requires Replace(before, run, P.NewResults(run.id, servers)).Ok?
    ensures var db := Replace(before, run, P.NewResults(run.id, servers)).value;
      && Latest(db.runs) == Some(run) && ListFor(db.results, run.id) == P.NewResults(run.id, servers)
      && Replace(db, next, rows) == Err(InProgress)
      && Replace(SetDone(db, run.id), next, rows).Ok?
  {
    var results := P.NewResults(run.id, servers);
    UpsertAllDistinct(results, run.id, servers);
    ListAll(results, run.id);
    assert [run][..0] == [];
    var done := SetDone(Db([run], results), run.id);
    assert done.runs[..0] == [];
  }

  /** A Dispatch that nothing interrupts is the protocol's guard, transaction and publication in a row. */
  lemma DispatchUninterrupted(s: P.State, id: RunId, script: string, ids: seq<ServerId>, now: Time)
    requires P.Enabled(s, P.Guard(id, script, ids, now))
    ensures var run, servers := BatchRun(id, script, RunRunning, now), P.Dedupe(ids);
      var s1 := P.Apply(s, P.Guard(id, script, ids, now));
      && P.Enabled(s1, P.ReplaceRun(id, true))
      && var s2 := P.Apply(s1, P.ReplaceRun(id, true));
      match Replace(s.db, run, P.NewResults(id, servers))
      case Err(_) => s2.db == s.db && s2.current == s.current && (id in s2.replaced ==> id in s.replaced)
      case Ok(db) =>
        && s2.db == db && P.Enabled(s2, P.Publish(id))
        && var s3 := P.Apply(s2, P.Publish(id));
           s3.db == db && s3.current == Some(id) && id in s3.runs && s3.runs[id] == P.NewRunState(id, servers, s.interval)
  {
  }

  /** A Cancel that nothing interrupts signals the run and closes every session registered with it. */
  lemma CancelUninterrupted(s: P.State, id: RunId)
    requires s.up && s.current == Some(id) && id in s.runs && !P.Done(s.runs[id])
    ensures P.Enabled(s, P.CaptureCancel(id))
    ensures var s1 := P.Apply(s, P.CaptureCancel(id));
      && P.Enabled(s1, P.CancelContext(id))
      && var s2 := P.Apply(s1, P.CancelContext(id));
      && P.Enabled(s2, P.Sweep(id))
      && var s3 := P.Apply(s2, P.Sweep(id));
      && s3.runs[id].cancelled && s3.runs[id].execs.Keys == s.runs[id].execs.Keys
      && forall server :: server in s.runs[id].execs ==>
           s3.runs[id].execs[server] == if server in s.runs[id].sessions
                                        then s.runs[id].execs[server].(session := P.E.Closed)
                                        else s.runs[id].execs[server]
  {
  }

  /** A completion that nothing interrupts marks the run, admits the next dispatch and ends every stream. */
  lemma CompleteUninterrupted(s: P.State, id: RunId, ok: bool)
    requires s.up && id in s.runs && s.runs[id].waiter == P.Waiting
    requires forall server :: server in s.runs[id].execs ==> s.runs[id].execs[server].pc == P.E.Exited
    ensures P.Enabled(s, P.MarkDone(id, ok))
    ensures var s1 := P.Apply(s, P.MarkDone(id, ok));
      && P.Enabled(s1, P.SetDoneFlag(id))
      && var s2 := P.Apply(s1, P.SetDoneFlag(id));
      && P.Done(s2.runs[id]) && P.Enabled(s2, P.CloseSubscribers(id))
      && var s3 := P.Apply(s2, P.CloseSubscribers(id));
      && P.Done(s3.runs[id]) && s3.db == (if ok then SetDone(s.db, id) else s.db) && s3.hub.subs == {}
      && forall c :: c in s.hub.chans && c in s.hub.subs ==> s3.hub.chans[c] == s.hub.chans[c].(closed := true)
  {
  }

  /** A Subscribe that nothing interrupts attaches an empty open channel to the current run, done or not. */
  lemma SubscribeUninterrupted(s: P.State, c: ChanId, id: RunId)
    requires s.up && s.current == Some(id) && id in s.runs && c !in s.hub.chans && c !in s.subscribing
    ensures P.Enabled(s, P.SubscribeCheck(c, id))
    ensures var s1 := P.Apply(s, P.SubscribeCheck(c, id));
      && P.Enabled(s1, P.SubscribeAttach(c))
      && var s2 := P.Apply(s1, P.SubscribeAttach(c));
      && c in s2.hub.subs && c in s2.hub.chans && s2.hub.chans[c].run == id && Received(s2.hub.chans[c]) == []
      && !s2.hub.chans[c].closed && forall d :: d in s.hub.chans ==> s2.hub.chans[d] == s.hub.chans[d]
  {
  }
}
