/** What holds in every state that any interleaving reaches. */
module BatchTheorems {
  import opened Prelude
  import opened BatchTypes
  import opened BatchStore
  import opened BatchFanout
  import opened BatchProtocol
  import opened BatchInvariant
  import opened BatchRecovery
  import opened BatchOutput
  import E = BatchExecution

  ghost predicate Reachable(s: State) {
    exists interval: int, steps: seq<Step> :: Run(Init(interval), steps) == Some(s)
  }

  lemma ReachableInv(s: State)
    requires Reachable(s)
    ensures Inv(s)
  {
    var interval: int, steps: seq<Step> :| Run(Init(interval), steps) == Some(s);
    RunKeepsInv(interval, steps);
  }

  lemma RunIsSound(s: State, id: RunId)
    requires Reachable(s) && id in s.runs
    ensures ExecsInv(id, s.runs[id], s.hub.log) && SessionsInv(s.runs[id]) && RowsInv(id, s.runs[id], s.db)
    ensures s.runs[id].waiter == Waiting ==> s.current == Some(id)
  {
    ReachableInv(s);
    assert RunInv(id, s.runs[id], s.db, s.targets, s.current, s.hub.log);
  }

  /** A run some of whose executions have not finalized. */
  ghost predicate Unfinished(s: State, id: RunId) {
    id in s.runs && !AllExited(s.runs[id])
  }

  /**
   * Serialization, although the guard is released before the transaction: a run with unfinished
   * executions is the single row of the store, still running, and the current run; two such runs
   * are the same run; and no other dispatch can pass the store meanwhile.
   */
  lemma Serialized(s: State, id: RunId)
    requires Reachable(s) && Unfinished(s, id)
    ensures IsRow(s.db, id, RunRunning) && s.current == Some(id)
    ensures forall other: RunId :: Unfinished(s, other) ==> other == id
    ensures forall other: RunId, healthy: bool :: other in s.guarded ==> other !in ApplyReplace(s, other, healthy).replaced
  {
    RunIsSound(s, id);
    forall other: RunId | Unfinished(s, other) ensures other == id {
      RunIsSound(s, other);
    }
    ReachableInv(s);
    RefusesDispatch(s, id);
  }

  /**
   * The stored results are exactly the rows of the stored run, one per target server in dispatch
   * order, so no upsert of an older run is ever among them.
   */
  lemma StoreKeyed(s: State)
    requires Reachable(s)
    ensures s.db.runs == [] ==> s.db.results == []
    ensures s.db.runs != [] ==>
      && |s.db.runs| == 1 && s.db.runs[0].id in s.targets
      && RowsFor(s.db.results, s.db.runs[0].id, s.targets[s.db.runs[0].id])
  {
    ReachableInv(s);
  }

  lemma SweptSessions(rs: RunState, server: ServerId)
    requires SessionsInv(rs) && server in rs.execs && E.Control(rs.execs[server])
    ensures rs.swept && rs.execs[server].session == E.Open ==>
      || rs.execs[server].pc.RegisterSession? || rs.execs[server].pc.CheckContext?
      || rs.execs[server].pc.Abandon? || rs.execs[server].pc.CloseSession?
    ensures rs.waiter != Waiting ==> rs.execs[server].session != E.Open && rs.sessions == {}
  {
    assert rs.swept ==> Unswept(rs.execs[server]);
    if rs.waiter != Waiting {
      assert forall other :: other in rs.execs ==> !E.Registered(rs.execs[other]);
    }
  }

  /**
   * Cancel strands no session: once a sweep has ended, a session still open belongs to an execution
   * that has yet to pass its ctx check, or is inside a close of its own, the one after the check or
   * the deferred one; when a run is marked done, every session it opened is closed and none is
   * registered.
   */
  lemma NoStrandedSession(s: State, id: RunId, server: ServerId)
    requires Reachable(s) && id in s.runs && server in s.runs[id].execs
    ensures var e := s.runs[id].execs[server];
      && (s.runs[id].swept && e.session == E.Open ==>
            e.pc.RegisterSession? || e.pc.CheckContext? || e.pc.Abandon? || e.pc.CloseSession?)
      && (s.runs[id].waiter != Waiting ==> e.session != E.Open && s.runs[id].sessions == {})
  {
    RunIsSound(s, id);
    SweptSessions(s.runs[id], server);
  }

  /** ... and the only way past the ctx check of a swept run leads to the close, and past that to the failure. */
  lemma SweptCheckCloses(rs: RunState, server: ServerId, a: E.Action)
    requires SessionsInv(rs) && rs.swept && CanAct(rs, server, a)
    ensures rs.execs[server].pc.CheckContext? ==>
      a == E.Check(true) && Acted(rs, server, a).execs[server].pc == E.Abandon
    ensures rs.execs[server].pc.Abandon? ==>
      && a == E.CloseAbandoned && Acted(rs, server, a).execs[server].session == E.Closed
      && Acted(rs, server, a).execs[server].pc == E.Fail(CANCELLED)
  {
  }

  /**
   * The event grammar: a finished execution has broadcast one running status, then its output
   * chunks, then one status carrying its final result, and nothing else. That result is the verdict
   * on what happened to it, and holds the capped output.
   */
  lemma EventGrammar(s: State, id: RunId, server: ServerId)
    requires Reachable(s) && id in s.runs && server in s.runs[id].execs
    requires s.runs[id].execs[server].pc == E.Exited
    ensures var e := s.runs[id].execs[server];
      && Proj(s.hub.log, id, server)
         == [E.RunningEvent(server)] + E.Outputs(server, e.sent) + [StatusOf(e.result)]
      && Holds(e.result, Flatten(e.sent))
      && (e.result.status, e.result.error, e.result.exitCode) == E.Verdict(e)
  {
    RunIsSound(s, id);
    E.FinishedExec(s.runs[id].execs[server], Proj(s.hub.log, id, server));
  }

  /** While a run is the stored one, every result whose last persist succeeded is the stored row. */
  lemma SavedIsStored(s: State, id: RunId, i: nat)
    requires Reachable(s) && id in s.runs && s.db.runs != [] && s.db.runs[0].id == id
    requires i < |s.runs[id].servers|
    ensures i < |s.db.results| && s.runs[id].servers[i] in s.runs[id].execs
    ensures var e := s.runs[id].execs[s.runs[id].servers[i]]; e.saved ==> s.db.results[i] == e.result
  {
    RunIsSound(s, id);
    StoreKeyed(s);
  }

  /**
   * Subscribers: what a channel delivered is the broadcasts since it was attached, in order, minus
   * exactly those that met a full buffer; an attached channel is open; and once its run's waiter has
   * closed the streams, a channel attached before that and not unsubscribed is closed.
   */
  lemma SubscriberStream(s: State, c: ChanId)
    requires Reachable(s) && c in s.hub.chans
    ensures ChanInv(s.hub.log, s.hub.chans[c])
    ensures c in s.hub.subs ==> !s.hub.chans[c].closed && !s.hub.chans[c].detached
    ensures s.hub.chans[c].run in s.runs
    ensures s.runs[s.hub.chans[c].run].waiter == Finished && !s.hub.chans[c].late && !s.hub.chans[c].detached ==>
              s.hub.chans[c].closed
  {
    ReachableInv(s);
  }

  /** The stored run is marked running, but nothing in the process is left that would mark it done. */
  ghost predicate Stuck(s: State, id: RunId) {
    IsRow(s.db, id, RunRunning) && id !in s.replaced && (id in s.runs ==> s.runs[id].waiter != Waiting)
  }

  /** That is what a completion leaves whose store statement fails: the waiter only logs the error. */
  lemma FailedMarkSticks(s: State, id: RunId, ok: bool)
    requires Reachable(s) && Enabled(s, MarkDone(id, ok))
    ensures Stuck(Apply(s, MarkDone(id, ok)), id) <==> !ok
  {
    RunIsSound(s, id);
    ReachableInv(s);
  }

  /** A dispatch that waits past the guard gets through once the run is marked done, and only then. */
  lemma MarkAdmits(s: State, id: RunId, ok: bool, waiting: RunId)
    requires Reachable(s) && Enabled(s, MarkDone(id, ok)) && waiting in s.guarded
    ensures waiting in ApplyReplace(Apply(s, MarkDone(id, ok)), waiting, true).replaced <==> ok
  {
    RunIsSound(s, id);
    GuardedNotReplaced(s, waiting);
    var d := s.guarded[waiting];
    MarkedAccepts(s.db, id, ok, d.run, NewResults(waiting, d.servers));
  }

  lemma GuardedNotReplaced(s: State, id: RunId)
    requires Reachable(s) && id in s.guarded
    ensures id !in s.replaced
  {
    ReachableInv(s);
  }

  lemma MarkedAccepts(db: Db, id: RunId, ok: bool, run: BatchRun, rows: seq<RunResult>)
    requires IsRow(db, id, RunRunning)
    ensures Replace(if ok then SetDone(db, id) else db, run, rows).Ok? <==> ok
  {
    var after := if ok then SetDone(db, id) else db;
    assert after.runs[..0] == [];
    assert Latest(after.runs) == Some(after.runs[0]);
  }

  /** ... and what a restart leaves that finds a run cut short and cannot mark it done. */
  lemma FailedRecoverySticks(s: State, now: Time, loads: bool, wrote: set<nat>, marked: bool)
    requires Reachable(s) && !s.up && s.db.runs != []
    ensures Stuck(Apply(s, Restart(now, loads, wrote, marked, true)), s.db.runs[0].id)
       <==> s.db.runs[0].status == RunRunning && !(loads && marked)
  {
    ReachableInv(s);
    RecoverRepairs(s.db, s.targets, now, wrote, marked);
  }

  lemma StuckHasNoWaiter(s: State, id: RunId, other: RunId)
    requires Inv(s) && Stuck(s, id) && other in s.runs
    ensures s.runs[other].waiter != Waiting
  {
    assert RunInv(other, s.runs[other], s.db, s.targets, s.current, s.hub.log);
  }

  lemma StuckStep(s: State, step: Step, id: RunId)
    requires Inv(s) && Stuck(s, id) && Enabled(s, step) && !step.Restart?
    ensures Stuck(Apply(s, step), id)
  {
    if step.MarkDone? {
      StuckHasNoWaiter(s, id, step.id);
    } else if step.ReplaceRun? {
      StuckReplace(s, step, id);
    } else {
      assert step.Publish? ==> step.id !in s.runs;
      StuckQuiet(s, step, id);
    }
  }

  lemma StuckReplace(s: State, step: Step, id: RunId)
    requires Stuck(s, id) && Enabled(s, step) && step.ReplaceRun?
    ensures Stuck(Apply(s, step), id)
  {
    assert s.db.runs[..0] == [];
    assert Latest(s.db.runs) == Some(s.db.runs[0]);
  }

  lemma StuckQuiet(s: State, step: Step, id: RunId)
    requires Stuck(s, id) && Enabled(s, step) && !step.Restart? && !step.MarkDone? && !step.ReplaceRun?
    requires step.Publish? ==> step.id != id
    ensures Stuck(Apply(s, step), id)
  {
  }

  /** Until the process restarts, whatever a stuck one does, every dispatch is refused by the store. */
  lemma {:induction false} StuckUntilRestart(s: State, steps: seq<Step>, id: RunId)
    requires Inv(s) && Stuck(s, id) && Run(s, steps).Some?
    requires forall i :: 0 <= i < |steps| ==> !steps[i].Restart?
    ensures var t := Run(s, steps).value;
      && Inv(t) && Stuck(t, id)
      && forall other: RunId, healthy: bool :: other in t.guarded ==> other !in ApplyReplace(t, other, healthy).replaced
    decreases |steps|
  {
    if steps != [] {
      var n := |steps| - 1;
      StuckUntilRestart(s, steps[..n], id);
      var before := Run(s, steps[..n]).value;
      StuckStep(before, steps[n], id);
      StepKeepsInv(before, steps[n]);
    }
    RefusesDispatch(Run(s, steps).value, id);
  }

  /** While the stored run is marked running, the store refuses every dispatch. */
  lemma RefusesDispatch(s: State, id: RunId)
    requires Inv(s) && IsRow(s.db, id, RunRunning)
    ensures forall other: RunId, healthy: bool :: other in s.guarded ==> other !in ApplyReplace(s, other, healthy).replaced
  {
    LatestIsNewest(s.db.runs);
  }
}
