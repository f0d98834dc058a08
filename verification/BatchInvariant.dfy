/** The inductive invariant of the protocol: every step keeps it, so every reachable state has it. */
module BatchInvariant {
  import opened Prelude
  import opened BatchTypes
  import opened BatchStore
  import opened BatchFanout
  import opened BatchProtocol
  import opened BatchRecovery
  import E = BatchExecution
  import BatchOutput

  /** The events a run has broadcast about one server. */
  function Proj(log: seq<Tagged>, id: RunId, server: ServerId): seq<Event> {
    if log == [] then []
    else
      var n := |log| - 1;
      Proj(log[..n], id, server) + if log[n].run == id && log[n].event.server == server then [log[n].event] else []
  }

  ghost predicate IsRow(db: Db, id: RunId, status: BatchRunStatus) {
    |db.runs| == 1 && db.runs[0].id == id && db.runs[0].status == status
  }

  predicate AllExited(rs: RunState) {
    forall server :: server in rs.execs ==> rs.execs[server].pc == E.Exited
  }

  /** After a sweep an open session belongs to an execution before its ctx check or in a close of its own. */
  predicate Unswept(e: E.Exec) {
    e.session == E.Open ==> e.pc.RegisterSession? || e.pc.CheckContext? || e.pc.Abandon? || e.pc.CloseSession?
  }

  ghost predicate ExecsInv(id: RunId, rs: RunState, log: seq<Tagged>) {
    forall server :: server in rs.execs ==>
      && rs.execs[server].result.runId == id && rs.execs[server].result.serverId == server
      && E.ExecInv(rs.execs[server], Proj(log, id, server))
  }

  ghost predicate SessionsInv(rs: RunState) {
    && Distinct(rs.servers)
    && (forall server :: server in rs.execs <==> server in rs.servers)
    && (forall server :: server in rs.sessions <==> server in rs.execs && E.Registered(rs.execs[server]))
    && (rs.swept ==> rs.cancelled && forall server :: server in rs.execs ==> Unswept(rs.execs[server]))
    && (rs.waiter != Waiting ==> AllExited(rs))
    && forall server :: server in rs.execs && rs.execs[server].sawCancel ==> rs.cancelled
  }

  /** The rows of saved executions are their results. */
  ghost predicate SavedRows(servers: seq<ServerId>, execs: map<ServerId, E.Exec>, rows: seq<RunResult>)
    requires |rows| == |servers|
  {
    forall i :: 0 <= i < |servers| ==>
      servers[i] in execs && (execs[servers[i]].saved ==> rows[i] == execs[servers[i]].result)
  }

  /** The store's view of a run: an unfinished run is the running row, and saved results are stored. */
  ghost predicate RowsInv(id: RunId, rs: RunState, db: Db) {
    && (rs.waiter == Waiting ==> IsRow(db, id, RunRunning))
    && (|db.runs| == 1 && db.runs[0].id == id ==>
          RowsFor(db.results, id, rs.servers) && SavedRows(rs.servers, rs.execs, db.results))
  }

  ghost predicate GuardedInv(d: Dispatching, id: RunId, db: Db, targets: map<RunId, seq<ServerId>>) {
    && id in targets && targets[id] == d.servers && Distinct(d.servers)
    && d.run.id == id && d.run.status == RunRunning
    && (db.runs == [] || db.runs[0].id != id)
  }

  ghost predicate ReplacedInv(d: Dispatching, id: RunId, db: Db, targets: map<RunId, seq<ServerId>>) {
    && id in targets && targets[id] == d.servers && Distinct(d.servers)
    && IsRow(db, id, RunRunning) && db.results == NewResults(id, d.servers)
  }

  /** Dispatches in flight: before the store transaction a run is nowhere, after it the running row. */
  ghost predicate DispatchInv(db: Db, targets: map<RunId, seq<ServerId>>, guarded: map<RunId, Dispatching>,
                              replaced: map<RunId, Dispatching>, published: set<RunId>) {
    && (forall id :: id in guarded ==>
          GuardedInv(guarded[id], id, db, targets) && id !in published && id !in replaced)
    && (forall id :: id in replaced ==> ReplacedInv(replaced[id], id, db, targets) && id !in published)
  }

  ghost predicate RunInv(id: RunId, rs: RunState, db: Db, targets: map<RunId, seq<ServerId>>,
                         current: Option<RunId>, log: seq<Tagged>) {
    && id in targets && targets[id] == rs.servers
    && ExecsInv(id, rs, log) && SessionsInv(rs) && RowsInv(id, rs, db)
    && (rs.waiter == Waiting ==> current == Some(id))
  }

  ghost predicate RunsInv(runs: map<RunId, RunState>, db: Db, targets: map<RunId, seq<ServerId>>,
                          current: Option<RunId>, log: seq<Tagged>) {
    forall id :: id in runs ==> RunInv(id, runs[id], db, targets, current, log)
  }

  /** Everything in the hub belongs to published runs, and a completed run keeps only late subscribers. */
  ghost predicate FanoutInv(hub: Hub, subscribing: map<ChanId, RunId>, current: Option<RunId>, runs: map<RunId, RunState>) {
    && (current.Some? ==> current.value in runs)
    && (forall i :: 0 <= i < |hub.log| ==> hub.log[i].run in runs)
    && (forall c :: c in subscribing ==> subscribing[c] in runs && c !in hub.chans)
    && (forall c :: c in hub.chans ==> hub.chans[c].run in runs)
    && (forall c :: c in hub.subs ==>
          && c in hub.chans
          && (runs[hub.chans[c].run].waiter == Finished ==> hub.chans[c].late))
  }

  ghost predicate Inv(s: State) {
    && Sound(s.db, s.targets)
    && DispatchInv(s.db, s.targets, s.guarded, s.replaced, s.runs.Keys)
    && RunsInv(s.runs, s.db, s.targets, s.current, s.hub.log)
    && HubInv(s.hub)
    && FanoutInv(s.hub, s.subscribing, s.current, s.runs)
    && (!s.up ==> s == Rebooted(s, s.db, s.lost, false))
  }

  // ---- Facts about the log ----

  lemma ProjSnoc(log: seq<Tagged>, t: Tagged, id: RunId, server: ServerId)
    ensures Proj(log + [t], id, server)
         == Proj(log, id, server) + if t.run == id && t.event.server == server then [t.event] else []
  {
    assert (log + [t])[..|log|] == log;
  }

  lemma {:induction false} ProjAbsent(log: seq<Tagged>, id: RunId, server: ServerId)
    requires forall i :: 0 <= i < |log| ==> log[i].run != id
    ensures Proj(log, id, server) == []
    decreases |log|
  {
    if log != [] {
      ProjAbsent(log[..|log| - 1], id, server);
    }
  }

  /** An action's broadcast extends the projection of its own server and no other. */
  lemma ProjAct(h: Hub, id: RunId, e: E.Exec, a: E.Action, id': RunId, server': ServerId)
    requires E.Enabled(e, a)
    ensures Proj(BroadcastAll(h, id, E.EventsOf(e, a)).log, id', server')
         == Proj(h.log, id', server')
            + if id' == id && server' == e.result.serverId then E.EventsOf(e, a) else []
  {
    var evs := E.EventsOf(e, a);
    if evs != [] {
      assert evs[..0] == [];
      assert BroadcastAll(h, id, evs) == Broadcast(h, Tagged(id, evs[0]));
      ProjSnoc(h.log, Tagged(id, evs[0]), id', server');
    }
  }

  lemma ActLog(h: Hub, id: RunId, e: E.Exec, a: E.Action)
    requires E.Enabled(e, a)
    ensures BroadcastAll(h, id, E.EventsOf(e, a)).chans.Keys == h.chans.Keys
    ensures BroadcastAll(h, id, E.EventsOf(e, a)).subs == h.subs
    ensures forall c :: c in h.chans ==>
      var c' := BroadcastAll(h, id, E.EventsOf(e, a)).chans[c];
      c'.run == h.chans[c].run && c'.late == h.chans[c].late && c'.joined == h.chans[c].joined
    ensures forall i :: 0 <= i < |BroadcastAll(h, id, E.EventsOf(e, a)).log| ==>
      (i < |h.log| && BroadcastAll(h, id, E.EventsOf(e, a)).log[i] == h.log[i])
      || BroadcastAll(h, id, E.EventsOf(e, a)).log[i].run == id
  {
    var evs := E.EventsOf(e, a);
    if evs != [] {
      assert evs[..0] == [];
      assert BroadcastAll(h, id, evs) == Broadcast(h, Tagged(id, evs[0]));
    }
  }

  // ---- Frames ----

  lemma KeysKept<K, V>(m: map<K, V>, k: K, v: V)
    requires k in m
    ensures m[k := v].Keys == m.Keys
  {
  }

  /** While a run is unfinished, every other published run has finished and is not in the store. */
  lemma OthersFinished(id: RunId, runs: map<RunId, RunState>, db: Db, targets: map<RunId, seq<ServerId>>,
                       current: Option<RunId>, log: seq<Tagged>)
    requires RunsInv(runs, db, targets, current, log) && IsRow(db, id, RunRunning)
    ensures forall id' :: id' in runs && id' != id ==> runs[id'].waiter != Waiting
  {
    forall id' | id' in runs && id' != id ensures runs[id'].waiter != Waiting {
      assert RunInv(id', runs[id'], db, targets, current, log);
    }
  }

  /** A run that is finished and not in the store has nothing to say about the store. */
  lemma RowsElsewhere(id: RunId, rs: RunState, db: Db)
    requires rs.waiter != Waiting && (db.runs == [] || db.runs[0].id != id)
    ensures RowsInv(id, rs, db)
  {
  }

  /** A step that rewrites one run and leaves the store and the log alone. */
  lemma RunsUpdate(id: RunId, rs: RunState, runs: map<RunId, RunState>, db: Db, targets: map<RunId, seq<ServerId>>,
                   current: Option<RunId>, log: seq<Tagged>)
    requires RunsInv(runs, db, targets, current, log) && id in runs
    requires RunInv(id, rs, db, targets, current, log)
    ensures RunsInv(runs[id := rs], db, targets, current, log)
    ensures runs[id := rs].Keys == runs.Keys
  {
  }

  lemma FanoutUpdate(id: RunId, rs: RunState, runs: map<RunId, RunState>, hub: Hub, subscribing: map<ChanId, RunId>,
                     current: Option<RunId>)
    requires FanoutInv(hub, subscribing, current, runs) && id in runs
    requires rs.waiter == Finished ==> runs[id].waiter == Finished
    ensures FanoutInv(hub, subscribing, current, runs[id := rs])
  {
  }

  /** Reassembles the invariant after a step that changes only the runs, the store and the hub. */
  lemma Reassemble(s: State, runs: map<RunId, RunState>, db: Db, lost: set<ServerId>, hub: Hub)
    requires Inv(s) && s.up && runs.Keys == s.runs.Keys
    requires Sound(db, s.targets)
    requires RunsInv(runs, db, s.targets, s.current, hub.log)
    requires DispatchInv(db, s.targets, s.guarded, s.replaced, s.runs.Keys)
    requires HubInv(hub) && FanoutInv(hub, s.subscribing, s.current, runs)
    ensures Inv(s.(runs := runs, db := db, lost := lost, hub := hub))
  {
  }

  // ---- Dispatch ----

  lemma GuardStep(s: State, id: RunId, script: string, ids: seq<ServerId>, now: Time)
    requires Inv(s) && Enabled(s, Guard(id, script, ids, now))
    ensures Inv(Apply(s, Guard(id, script, ids, now)))
  {
    DedupeDistinct(ids);
    var s' := Apply(s, Guard(id, script, ids, now));
    forall id' | id' in s.runs ensures RunInv(id', s.runs[id'], s.db, s'.targets, s.current, s.hub.log) {
      assert RunInv(id', s.runs[id'], s.db, s.targets, s.current, s.hub.log);
    }
  }

  /** The store transaction succeeds only when no run is running; every published run has then finished. */
  lemma ReplaceRuns(s: State, id: RunId, db: Db)
    requires Inv(s) && id in s.guarded
    requires Replace(s.db, s.guarded[id].run, NewResults(id, s.guarded[id].servers)) == Ok(db)
    ensures RunsInv(s.runs, db, s.targets, s.current, s.hub.log)
    ensures forall id' :: id' !in s.replaced
    ensures db == Db([s.guarded[id].run], NewResults(id, s.guarded[id].servers))
  {
    var d := s.guarded[id];
    UpsertAllDistinct(NewResults(id, d.servers), id, d.servers);
    LatestIsNewest(s.db.runs);
    forall id' | id' in s.runs ensures RunInv(id', s.runs[id'], db, s.targets, s.current, s.hub.log) {
      assert RunInv(id', s.runs[id'], s.db, s.targets, s.current, s.hub.log);
      RowsElsewhere(id', s.runs[id'], db);
    }
  }

  /** In the new store the dispatch owns the only row, and no other dispatch can still be in flight with it. */
  lemma ReplaceDispatch(s: State, id: RunId, db: Db)
    requires Inv(s) && id in s.guarded
    requires db == Db([s.guarded[id].run], NewResults(id, s.guarded[id].servers))
    requires forall id' :: id' !in s.replaced
    ensures DispatchInv(db, s.targets, s.guarded - {id}, s.replaced[id := s.guarded[id]], s.runs.Keys)
    ensures Sound(db, s.targets)
  {
    var d := s.guarded[id];
    assert GuardedInv(d, id, s.db, s.targets);
    assert ReplacedInv(d, id, db, s.targets);
    forall id' | id' in s.guarded - {id} ensures GuardedInv(s.guarded[id'], id', db, s.targets) {
      assert GuardedInv(s.guarded[id'], id', s.db, s.targets);
    }
  }

  lemma ReplaceStep(s: State, id: RunId, healthy: bool)
    requires Inv(s) && Enabled(s, ReplaceRun(id, healthy))
    ensures Inv(Apply(s, ReplaceRun(id, healthy)))
  {
    var d := s.guarded[id];
    var r := Replace(s.db, d.run, NewResults(id, d.servers));
    if healthy && r.Ok? {
      ReplaceRuns(s, id, r.value);
      ReplaceDispatch(s, id, r.value);
    }
  }

  lemma NewRunInv(id: RunId, servers: seq<ServerId>, interval: int, log: seq<Tagged>)
    requires Distinct(servers)
    requires forall i :: 0 <= i < |log| ==> log[i].run != id
    ensures ExecsInv(id, NewRunState(id, servers, interval), log)
    ensures SessionsInv(NewRunState(id, servers, interval))
  {
    var rs := NewRunState(id, servers, interval);
    forall server | server in rs.execs ensures E.ExecInv(rs.execs[server], Proj(log, id, server)) {
      ProjAbsent(log, id, server);
      E.StartInv(id, server, interval);
    }
    NewSessions(id, servers, interval);
  }

  lemma NewSessions(id: RunId, servers: seq<ServerId>, interval: int)
    requires Distinct(servers)
    ensures SessionsInv(NewRunState(id, servers, interval))
  {
    var rs := NewRunState(id, servers, interval);
    forall server | server in rs.execs
      ensures !E.Registered(rs.execs[server]) && !rs.execs[server].sawCancel
    {
      assert rs.execs[server] == E.Start(id, server, interval);
    }
  }

  /** The new run is waiting, current, and has just the rows of its dispatch. */
  lemma PublishedRun(id: RunId, d: Dispatching, interval: int, db: Db, targets: map<RunId, seq<ServerId>>, log: seq<Tagged>)
    requires ReplacedInv(d, id, db, targets) && forall i :: 0 <= i < |log| ==> log[i].run != id
    ensures RunInv(id, NewRunState(id, d.servers, interval), db, targets, Some(id), log)
  {
    NewRunInv(id, d.servers, interval, log);
    NewRows(id, d.servers, interval, db);
  }

  lemma NewRows(id: RunId, servers: seq<ServerId>, interval: int, db: Db)
    requires IsRow(db, id, RunRunning) && db.results == NewResults(id, servers)
    ensures RowsInv(id, NewRunState(id, servers, interval), db)
  {
  }

  /** A run that has finished does not mind another one being current. */
  lemma StillFinished(id: RunId, rs: RunState, db: Db, targets: map<RunId, seq<ServerId>>, current: Option<RunId>,
                      current': Option<RunId>, log: seq<Tagged>)
    requires RunInv(id, rs, db, targets, current, log) && rs.waiter != Waiting
    ensures RunInv(id, rs, db, targets, current', log)
  {
  }

  lemma PublishRuns(s: State, id: RunId)
    requires Inv(s) && id in s.replaced
    ensures RunsInv(s.runs[id := NewRunState(id, s.replaced[id].servers, s.interval)], s.db, s.targets, Some(id), s.hub.log)
  {
    var d := s.replaced[id];
    assert ReplacedInv(d, id, s.db, s.targets);
    PublishedRun(id, d, s.interval, s.db, s.targets, s.hub.log);
    OthersFinished(id, s.runs, s.db, s.targets, s.current, s.hub.log);
    forall id' | id' in s.runs ensures RunInv(id', s.runs[id'], s.db, s.targets, Some(id), s.hub.log) {
      StillFinished(id', s.runs[id'], s.db, s.targets, s.current, Some(id), s.hub.log);
    }
  }

  lemma PublishStep(s: State, id: RunId)
    requires Inv(s) && Enabled(s, Publish(id))
    ensures Inv(Apply(s, Publish(id)))
  {
    PublishRuns(s, id);
    PublishDispatch(id, s.db, s.targets, s.guarded, s.replaced, s.runs.Keys);
    PublishFanout(s.hub, id, NewRunState(id, s.replaced[id].servers, s.interval), s.runs, s.subscribing, s.current);
    assert Apply(s, Publish(id)).runs.Keys == s.runs.Keys + {id};
  }

  lemma PublishDispatch(id: RunId, db: Db, targets: map<RunId, seq<ServerId>>,
                        guarded: map<RunId, Dispatching>, replaced: map<RunId, Dispatching>, published: set<RunId>)
    requires DispatchInv(db, targets, guarded, replaced, published) && id in replaced
    ensures DispatchInv(db, targets, guarded, replaced - {id}, published + {id})
  {
    forall id' | id' in replaced ensures id' == id {
      assert ReplacedInv(replaced[id'], id', db, targets) && ReplacedInv(replaced[id], id, db, targets);
    }
  }

  lemma PublishFanout(hub: Hub, id: RunId, rs: RunState, runs: map<RunId, RunState>, subscribing: map<ChanId, RunId>,
                      current: Option<RunId>)
    requires FanoutInv(hub, subscribing, current, runs) && id !in runs
    ensures FanoutInv(hub, subscribing, Some(id), runs[id := rs])
  {
  }

  // ---- Executions ----

  lemma ExecsReplaced(id: RunId, rs: RunState, server: ServerId, e: E.Exec, log: seq<Tagged>, log': seq<Tagged>)
    requires ExecsInv(id, rs, log) && server in rs.execs
    requires e.result.runId == id && e.result.serverId == server && E.ExecInv(e, Proj(log', id, server))
    requires forall other :: other != server ==> Proj(log', id, other) == Proj(log, id, other)
    ensures ExecsInv(id, rs.(execs := rs.execs[server := e]), log')
  {
  }

  /** An action keeps the executions' invariant of its own run ... */
  lemma ActExecs(id: RunId, rs: RunState, server: ServerId, a: E.Action, hub: Hub, hub': Hub)
    requires ExecsInv(id, rs, hub.log) && CanAct(rs, server, a)
    requires hub' == BroadcastAll(hub, id, E.EventsOf(rs.execs[server], a))
    ensures ExecsInv(id, Acted(rs, server, a), hub'.log)
  {
    var e := rs.execs[server];
    var e' := E.Apply(e, a);
    ProjAct(hub, id, e, a, id, server);
    E.StepInv(e, a, Proj(hub.log, id, server));
    E.SavesOwnRow(e, a);
    forall other | other != server ensures Proj(hub'.log, id, other) == Proj(hub.log, id, other) {
      ProjAct(hub, id, e, a, id, other);
      assert Proj(hub.log, id, other) + [] == Proj(hub.log, id, other);
    }
    ExecsReplaced(id, rs, server, e', hub.log, hub'.log);
  }

  /** ... and broadcasts nothing in the name of another run. */
  lemma ActOtherRuns(id: RunId, e: E.Exec, a: E.Action, hub: Hub, hub': Hub)
    requires E.Enabled(e, a) && hub' == BroadcastAll(hub, id, E.EventsOf(e, a))
    ensures forall id', server :: id' != id ==> Proj(hub'.log, id', server) == Proj(hub.log, id', server)
  {
    forall id', server | id' != id ensures Proj(hub'.log, id', server) == Proj(hub.log, id', server) {
      ProjAct(hub, id, e, a, id', server);
      assert Proj(hub.log, id', server) + [] == Proj(hub.log, id', server);
    }
  }

  /** Where an action moves the execution between registered and not. */
  lemma ActRegistered(e: E.Exec, a: E.Action, cancelled: bool)
    requires E.Control(e) && E.Enabled(e, a) && |e.result.output| <= BatchOutput.MAX_OUTPUT && SeesContext(a, cancelled)
    ensures E.Registered(E.Apply(e, a)) == (a.Register? || (E.Registered(e) && !a.Deregister?))
    ensures cancelled && Unswept(e) ==> Unswept(E.Apply(e, a))
  {
  }

  lemma ActSessions(rs: RunState, server: ServerId, a: E.Action)
    requires SessionsInv(rs) && CanAct(rs, server, a) && E.Control(rs.execs[server])
    ensures SessionsInv(Acted(rs, server, a)) && rs.waiter == Waiting
  {
    E.SavesOwnRow(rs.execs[server], a);
    ActRegistered(rs.execs[server], a, rs.cancelled);
  }

  lemma ActRows(id: RunId, rs: RunState, server: ServerId, a: E.Action, db: Db)
    requires RowsInv(id, rs, db) && SessionsInv(rs) && rs.waiter == Waiting && CanAct(rs, server, a)
    requires rs.execs[server].result.runId == id && rs.execs[server].result.serverId == server
    ensures RowsInv(id, Acted(rs, server, a), Persisted(db, rs.execs[server], a))
    ensures Persisted(db, rs.execs[server], a).runs == db.runs
    ensures RowsFor(Persisted(db, rs.execs[server], a).results, id, rs.servers)
  {
    var k :| 0 <= k < |rs.servers| && rs.servers[k] == server;
    ActTable(id, rs.servers, rs.execs[server], a, db, k);
    OneRow(rs, server, E.Apply(rs.execs[server], a), db.results, Persisted(db, rs.execs[server], a).results, k);
  }

  /** What an action does to the table: at most its own row changes, to the result if that is saved. */
  lemma ActTable(id: RunId, servers: seq<ServerId>, e: E.Exec, a: E.Action, db: Db, k: nat)
    requires RowsFor(db.results, id, servers) && Distinct(servers) && k < |servers|
    requires E.Enabled(e, a) && |e.result.output| <= BatchOutput.MAX_OUTPUT
    requires e.result.runId == id && e.result.serverId == servers[k] && (e.saved ==> db.results[k] == e.result)
    ensures Persisted(db, e, a).runs == db.runs && RowsFor(Persisted(db, e, a).results, id, servers)
    ensures forall i :: 0 <= i < |db.results| && i != k ==> Persisted(db, e, a).results[i] == db.results[i]
    ensures E.Apply(e, a).saved ==> Persisted(db, e, a).results[k] == E.Apply(e, a).result
  {
    E.SavesOwnRow(e, a);
    if E.SavedBy(e, a).Some? {
      UpsertInPlace(db.results, e.result, id, servers, k);
    }
  }

  /** One execution and its row change; all other rows stay those of their executions. */
  lemma OneRow(rs: RunState, server: ServerId, e: E.Exec, rows: seq<RunResult>, rows': seq<RunResult>, k: nat)
    requires Distinct(rs.servers) && |rows'| == |rows| == |rs.servers| && k < |rs.servers| && rs.servers[k] == server
    requires SavedRows(rs.servers, rs.execs, rows)
    requires forall i :: 0 <= i < |rows| && i != k ==> rows'[i] == rows[i]
    requires e.saved ==> rows'[k] == e.result
    ensures SavedRows(rs.servers, rs.execs[server := e], rows')
  {
    assert forall i :: 0 <= i < |rs.servers| && i != k ==> rs.servers[i] != server;
  }

  /** Changing the unfinished run, its rows and the log in its name leaves the other runs' invariants intact. */
  lemma UnfinishedChanged(id: RunId, rs: RunState, runs: map<RunId, RunState>, db: Db, db': Db,
                          targets: map<RunId, seq<ServerId>>, current: Option<RunId>, log: seq<Tagged>, log': seq<Tagged>)
    requires RunsInv(runs, db, targets, current, log) && id in runs && IsRow(db, id, RunRunning)
    requires RunInv(id, rs, db', targets, current, log')
    requires |db'.runs| == 1 && db'.runs[0].id == id
    requires forall id', server :: id' != id ==> Proj(log', id', server) == Proj(log, id', server)
    ensures RunsInv(runs[id := rs], db', targets, current, log')
  {
    OthersFinished(id, runs, db, targets, current, log);
    forall id' | id' in runs && id' != id ensures RunInv(id', runs[id'], db', targets, current, log') {
      assert RunInv(id', runs[id'], db, targets, current, log);
      RowsElsewhere(id', runs[id'], db');
    }
  }

  /** Dispatches in flight do not mind what the unfinished run does to its own rows. */
  lemma DispatchUnaffected(id: RunId, db: Db, db': Db, targets: map<RunId, seq<ServerId>>,
                           guarded: map<RunId, Dispatching>, replaced: map<RunId, Dispatching>, published: set<RunId>)
    requires DispatchInv(db, targets, guarded, replaced, published) && id in published
    requires |db.runs| == |db'.runs| == 1 && db.runs[0].id == db'.runs[0].id == id
    ensures DispatchInv(db', targets, guarded, replaced, published)
  {
    forall id' | id' in guarded ensures GuardedInv(guarded[id'], id', db', targets) {
      assert GuardedInv(guarded[id'], id', db, targets);
    }
    assert forall id' :: id' in replaced ==> ReplacedInv(replaced[id'], id', db, targets);
  }

  lemma ActRun(s: State, id: RunId, server: ServerId, a: E.Action, rs': RunState, db': Db, hub': Hub)
    requires Inv(s) && id in s.runs && CanAct(s.runs[id], server, a)
    requires rs' == Acted(s.runs[id], server, a)
    requires db' == Persisted(s.db, s.runs[id].execs[server], a)
    requires hub' == BroadcastAll(s.hub, id, E.EventsOf(s.runs[id].execs[server], a))
    ensures RunInv(id, rs', db', s.targets, s.current, hub'.log)
    ensures rs'.waiter == s.runs[id].waiter == Waiting && IsRow(s.db, id, RunRunning)
    ensures db'.runs == s.db.runs && Sound(db', s.targets)
  {
    assert RunInv(id, s.runs[id], s.db, s.targets, s.current, s.hub.log);
    ActExecs(id, s.runs[id], server, a, s.hub, hub');
    ActSessions(s.runs[id], server, a);
    ActRows(id, s.runs[id], server, a, s.db);
  }

  lemma ActParts(s: State, id: RunId, server: ServerId, a: E.Action, rs': RunState, db': Db, hub': Hub)
    requires Inv(s) && s.up && id in s.runs && CanAct(s.runs[id], server, a)
    requires rs' == Acted(s.runs[id], server, a)
    requires db' == Persisted(s.db, s.runs[id].execs[server], a)
    requires hub' == BroadcastAll(s.hub, id, E.EventsOf(s.runs[id].execs[server], a))
    ensures Sound(db', s.targets)
    ensures RunsInv(s.runs[id := rs'], db', s.targets, s.current, hub'.log)
    ensures DispatchInv(db', s.targets, s.guarded, s.replaced, s.runs.Keys)
    ensures HubInv(hub') && FanoutInv(hub', s.subscribing, s.current, s.runs[id := rs'])
  {
    var e := s.runs[id].execs[server];
    ActRun(s, id, server, a, rs', db', hub');
    ActOtherRuns(id, e, a, s.hub, hub');
    UnfinishedChanged(id, rs', s.runs, s.db, db', s.targets, s.current, s.hub.log, hub'.log);
    BroadcastAllInv(s.hub, id, E.EventsOf(e, a));
    ActFanout(s.hub, id, e, a, s.runs, rs', s.subscribing, s.current, hub');
    DispatchUnaffected(id, s.db, db', s.targets, s.guarded, s.replaced, s.runs.Keys);
  }

  lemma ActStep(s: State, id: RunId, server: ServerId, a: E.Action)
    requires Inv(s) && Enabled(s, Act(id, server, a))
    ensures Inv(Apply(s, Act(id, server, a)))
  {
    var e, rs' := s.runs[id].execs[server], Acted(s.runs[id], server, a);
    var db', hub' := Persisted(s.db, e, a), BroadcastAll(s.hub, id, E.EventsOf(e, a));
    KeysKept(s.runs, id, rs');
    ActParts(s, id, server, a, rs', db', hub');
    Reassemble(s, s.runs[id := rs'], db', if E.Loses(e, a) then s.lost + {server} else s.lost, hub');
  }

  lemma ActFanout(hub: Hub, id: RunId, e: E.Exec, a: E.Action, runs: map<RunId, RunState>, rs: RunState,
                  subscribing: map<ChanId, RunId>, current: Option<RunId>, hub': Hub)
    requires FanoutInv(hub, subscribing, current, runs) && id in runs && rs.waiter == runs[id].waiter
    requires E.Enabled(e, a) && hub' == BroadcastAll(hub, id, E.EventsOf(e, a))
    ensures FanoutInv(hub', subscribing, current, runs[id := rs])
  {
    ActLog(hub, id, e, a);
    FanoutUpdate(id, rs, runs, hub, subscribing, current);
  }

  // ---- Cancel ----

  /** A step that rewrites one run and nothing else. */
  lemma RunOnlyStep(s: State, id: RunId, rs: RunState)
    requires Inv(s) && s.up && id in s.runs
    requires RunInv(id, rs, s.db, s.targets, s.current, s.hub.log)
    requires rs.waiter == Finished ==> s.runs[id].waiter == Finished
    ensures Inv(s.(runs := s.runs[id := rs]))
  {
    KeysKept(s.runs, id, rs);
    FanoutUpdate(id, rs, s.runs, s.hub, s.subscribing, s.current);
    RunsUpdate(id, rs, s.runs, s.db, s.targets, s.current, s.hub.log);
    Reassemble(s, s.runs[id := rs], s.db, s.lost, s.hub);
  }

  lemma SweepExecs(id: RunId, rs: RunState, log: seq<Tagged>)
    requires ExecsInv(id, rs, log) && SessionsInv(rs)
    ensures ExecsInv(id, Swept(rs), log)
  {
    forall server | server in rs.execs ensures E.ExecInv(Swept(rs).execs[server], Proj(log, id, server)) {
      if server in rs.sessions {
        E.ClosedInv(rs.execs[server], Proj(log, id, server));
      }
    }
  }

  lemma SweepOne(e: E.Exec)
    requires E.Control(e)
    ensures E.Registered(e) ==> E.Registered(e.(session := E.Closed))
    ensures !E.Registered(e) ==> Unswept(e)
  {
  }

  lemma SweepSessions(id: RunId, rs: RunState, log: seq<Tagged>)
    requires ExecsInv(id, rs, log) && SessionsInv(rs) && rs.cancelled
    ensures SessionsInv(Swept(rs))
  {
    forall server | server in rs.execs
      ensures Unswept(Swept(rs).execs[server])
      ensures E.Registered(Swept(rs).execs[server]) == E.Registered(rs.execs[server])
    {
      SweepOne(rs.execs[server]);
    }
  }

  lemma SweepRows(id: RunId, rs: RunState, db: Db)
    requires RowsInv(id, rs, db)
    ensures RowsInv(id, Swept(rs), db)
  {
  }

  lemma SignalStep(s: State, step: Step)
    requires Inv(s) && Enabled(s, step) && (step.CaptureCancel? || step.CancelContext?)
    ensures Inv(Apply(s, step))
  {
    if step.CancelContext? {
      var id := step.id;
      assert RunInv(id, s.runs[id], s.db, s.targets, s.current, s.hub.log);
      RunOnlyStep(s, id, s.runs[id].(cancelled := true));
    }
  }

  lemma SweepStep(s: State, id: RunId)
    requires Inv(s) && Enabled(s, Sweep(id))
    ensures Inv(Apply(s, Sweep(id)))
  {
    assert RunInv(id, s.runs[id], s.db, s.targets, s.current, s.hub.log);
    SweepExecs(id, s.runs[id], s.hub.log);
    SweepSessions(id, s.runs[id], s.hub.log);
    SweepRows(id, s.runs[id], s.db);
    RunOnlyStep(s, id, Swept(s.runs[id]));
  }

  // ---- Completion ----

  lemma MarkParts(s: State, id: RunId, ok: bool, rs': RunState, db': Db)
    requires Inv(s) && s.up && id in s.runs && s.runs[id].waiter == Waiting && AllExited(s.runs[id])
    requires rs' == s.runs[id].(waiter := Marked) && db' == if ok then SetDone(s.db, id) else s.db
    ensures Sound(db', s.targets)
    ensures RunsInv(s.runs[id := rs'], db', s.targets, s.current, s.hub.log)
    ensures DispatchInv(db', s.targets, s.guarded, s.replaced, s.runs.Keys)
  {
    assert RunInv(id, s.runs[id], s.db, s.targets, s.current, s.hub.log);
    assert RowsInv(id, rs', db');
    UnfinishedChanged(id, rs', s.runs, s.db, db', s.targets, s.current, s.hub.log, s.hub.log);
    DispatchUnaffected(id, s.db, db', s.targets, s.guarded, s.replaced, s.runs.Keys);
  }

  lemma MarkStep(s: State, id: RunId, ok: bool)
    requires Inv(s) && Enabled(s, MarkDone(id, ok))
    ensures Inv(Apply(s, MarkDone(id, ok)))
  {
    var rs', db' := s.runs[id].(waiter := Marked), if ok then SetDone(s.db, id) else s.db;
    MarkParts(s, id, ok, rs', db');
    KeysKept(s.runs, id, rs');
    FanoutUpdate(id, rs', s.runs, s.hub, s.subscribing, s.current);
    Reassemble(s, s.runs[id := rs'], db', s.lost, s.hub);
  }

  lemma FlagStep(s: State, id: RunId)
    requires Inv(s) && Enabled(s, SetDoneFlag(id))
    ensures Inv(Apply(s, SetDoneFlag(id)))
  {
    assert RunInv(id, s.runs[id], s.db, s.targets, s.current, s.hub.log);
    RunOnlyStep(s, id, s.runs[id].(waiter := Finishing));
  }

  lemma CloseFanout(hub: Hub, id: RunId, rs: RunState, runs: map<RunId, RunState>, subscribing: map<ChanId, RunId>,
                    current: Option<RunId>)
    requires FanoutInv(hub, subscribing, current, runs) && id in runs
    ensures FanoutInv(CloseAll(hub), subscribing, current, runs[id := rs])
  {
  }

  lemma CloseStep(s: State, id: RunId)
    requires Inv(s) && Enabled(s, CloseSubscribers(id))
    ensures Inv(Apply(s, CloseSubscribers(id)))
  {
    var rs' := s.runs[id].(waiter := Finished);
    assert RunInv(id, s.runs[id], s.db, s.targets, s.current, s.hub.log);
    KeysKept(s.runs, id, rs');
    RunsUpdate(id, rs', s.runs, s.db, s.targets, s.current, s.hub.log);
    CloseAllInv(s.hub);
    CloseFanout(s.hub, id, rs', s.runs, s.subscribing, s.current);
    Reassemble(s, s.runs[id := rs'], s.db, s.lost, CloseAll(s.hub));
  }

  // ---- Subscribers ----

  /** A step of the fan-out alone. */
  lemma HubOnlyStep(s: State, hub: Hub, subscribing: map<ChanId, RunId>)
    requires Inv(s) && s.up && hub.log == s.hub.log
    requires HubInv(hub) && FanoutInv(hub, subscribing, s.current, s.runs)
    ensures Inv(s.(hub := hub, subscribing := subscribing))
  {
  }

  lemma AttachFanout(hub: Hub, c: ChanId, runs: map<RunId, RunState>, subscribing: map<ChanId, RunId>,
                     current: Option<RunId>)
    requires FanoutInv(hub, subscribing, current, runs) && c in subscribing && c !in hub.chans
    ensures FanoutInv(Attach(hub, c, subscribing[c], runs[subscribing[c]].waiter == Finished), subscribing - {c}, current, runs)
  {
  }

  lemma ReaderFanout(hub: Hub, c: ChanId, runs: map<RunId, RunState>, subscribing: map<ChanId, RunId>,
                     current: Option<RunId>)
    requires FanoutInv(hub, subscribing, current, runs) && c in hub.chans
    ensures FanoutInv(Detach(hub, c), subscribing, current, runs)
    ensures hub.chans[c].queue != [] ==> FanoutInv(Take(hub, c), subscribing, current, runs)
  {
  }

  lemma CheckStep(s: State, c: ChanId, id: RunId)
    requires Inv(s) && Enabled(s, SubscribeCheck(c, id))
    ensures Inv(Apply(s, SubscribeCheck(c, id)))
  {
    HubOnlyStep(s, s.hub, s.subscribing[c := id]);
  }

  lemma AttachStep(s: State, c: ChanId)
    requires Inv(s) && Enabled(s, SubscribeAttach(c))
    ensures Inv(Apply(s, SubscribeAttach(c)))
  {
    var id := s.subscribing[c];
    AttachInv(s.hub, c, id, s.runs[id].waiter == Finished);
    AttachFanout(s.hub, c, s.runs, s.subscribing, s.current);
    HubOnlyStep(s, Attach(s.hub, c, id, s.runs[id].waiter == Finished), s.subscribing - {c});
  }

  lemma ReaderStep(s: State, c: ChanId, step: Step)
    requires Inv(s) && Enabled(s, step) && (step == Unsubscribe(c) || step == Receive(c))
    ensures Inv(Apply(s, step))
  {
    ReaderFanout(s.hub, c, s.runs, s.subscribing, s.current);
    if step.Unsubscribe? {
      DetachInv(s.hub, c);
      HubOnlyStep(s, Detach(s.hub, c), s.subscribing);
    } else {
      TakeInv(s.hub, c);
      HubOnlyStep(s, Take(s.hub, c), s.subscribing);
    }
  }

  // ---- Crash and restart ----

  /** A fresh process over a sound store. */
  lemma FreshInv(s: State, db: Db, lost: set<ServerId>, up: bool)
    requires Sound(db, s.targets)
    ensures Inv(Rebooted(s, db, lost, up))
  {
  }

  lemma RebootStep(s: State, step: Step)
    requires Inv(s) && Enabled(s, step) && (step.Crash? || step.Restart?)
    ensures Inv(Apply(s, step))
  {
    if step.Crash? {
      FreshInv(s, s.db, s.lost, false);
    } else {
      RecoverRepairs(s.db, s.targets, step.now, step.wrote, step.marked);
      FreshInv(s, if step.loads then Recover(s.db, step.now, step.wrote, step.marked) else s.db,
               LostAfter(s.db, s.lost, step.loads, step.wrote), step.survives);
    }
  }

  // ---- Every interleaving ----

  lemma InitInv(interval: int)
    ensures Inv(Init(interval))
  {
  }

  predicate Dispatches(step: Step) {
    step.Guard? || step.ReplaceRun? || step.Publish?
  }

  predicate Cancels(step: Step) {
    step.CaptureCancel? || step.CancelContext? || step.Sweep?
  }

  predicate Completes(step: Step) {
    step.MarkDone? || step.SetDoneFlag? || step.CloseSubscribers?
  }

  predicate Subscribes(step: Step) {
    step.SubscribeCheck? || step.SubscribeAttach? || step.Unsubscribe? || step.Receive?
  }

  lemma DispatchesKeepInv(s: State, step: Step)
    requires Inv(s) && Enabled(s, step) && Dispatches(step)
    ensures Inv(Apply(s, step))
  {
    if step.Guard? {
      GuardStep(s, step.id, step.script, step.ids, step.now);
    } else if step.ReplaceRun? {
      ReplaceStep(s, step.id, step.healthy);
    } else {
      PublishStep(s, step.id);
    }
  }

  lemma CancelsKeepInv(s: State, step: Step)
    requires Inv(s) && Enabled(s, step) && Cancels(step)
    ensures Inv(Apply(s, step))
  {
    if step.Sweep? {
      SweepStep(s, step.id);
    } else {
      SignalStep(s, step);
    }
  }

  lemma CompletesKeepInv(s: State, step: Step)
    requires Inv(s) && Enabled(s, step) && Completes(step)
    ensures Inv(Apply(s, step))
  {
    if step.MarkDone? {
      MarkStep(s, step.id, step.ok);
    } else if step.SetDoneFlag? {
      FlagStep(s, step.id);
    } else {
      CloseStep(s, step.id);
    }
  }

  lemma SubscribesKeepInv(s: State, step: Step)
    requires Inv(s) && Enabled(s, step) && Subscribes(step)
    ensures Inv(Apply(s, step))
  {
    if step.SubscribeCheck? {
      CheckStep(s, step.chan, step.id);
    } else if step.SubscribeAttach? {
      AttachStep(s, step.chan);
    } else {
      ReaderStep(s, step.chan, step);
    }
  }

  lemma StepKeepsInv(s: State, step: Step)
    requires Inv(s) && Enabled(s, step)
    ensures Inv(Apply(s, step))
  {
    if Dispatches(step) {
      DispatchesKeepInv(s, step);
    } else if step.Act? {
      ActStep(s, step.id, step.server, step.action);
    } else if Cancels(step) {
      CancelsKeepInv(s, step);
    } else if Completes(step) {
      CompletesKeepInv(s, step);
    } else if Subscribes(step) {
      SubscribesKeepInv(s, step);
    } else {
      RebootStep(s, step);
    }
  }

  /** Every interleaving from the empty store keeps the invariant. */
  lemma {:induction false} RunKeepsInv(interval: int, steps: seq<Step>)
    ensures Run(Init(interval), steps).Some? ==> Inv(Run(Init(interval), steps).value)
    decreases |steps|
  {
    if steps != [] {
      RunKeepsInv(interval, steps[..|steps| - 1]);
      var before := Run(Init(interval), steps[..|steps| - 1]);
      if before.Some? && Enabled(before.value, steps[|steps| - 1]) {
        StepKeepsInv(before.value, steps[|steps| - 1]);
      }
    } else {
      InitInv(interval);
    }
  }
}
