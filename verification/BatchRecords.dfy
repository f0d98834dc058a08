/**
 * What the store says about finished work, across crashes and restarts: the rows that stay unfinished
 * in a finished run are exactly those whose last persist was lost.
 */
module BatchRecords {
  import opened Prelude
  import opened BatchTypes
  import opened BatchStore
  import opened BatchProtocol
  import opened BatchInvariant
  import opened BatchRecovery
  import opened BatchTheorems
  import opened BatchOvertake
  import E = BatchExecution

  /** A settled execution is lost unless saved, and only a saved one can have a terminal row. */
  ghost predicate Recorded(rs: RunState, rows: seq<RunResult>, lost: set<ServerId>) {
    && (forall server :: server in rs.execs ==>
          (server in lost <==> E.Settled(rs.execs[server]) && !rs.execs[server].saved))
    && (forall i :: 0 <= i < |rows| && i < |rs.servers| && rs.servers[i] in rs.execs && Terminal(rows[i].status) ==>
          rs.execs[rs.servers[i]].saved)
  }

  /** In a run marked done the terminal rows are those that were not lost. */
  ghost predicate DoneRecorded(db: Db, lost: set<ServerId>) {
    db.runs != [] && db.runs[0].status == RunDone ==>
      forall i :: 0 <= i < |db.results| ==> (Terminal(db.results[i].status) <==> db.results[i].serverId !in lost)
  }

  ghost predicate Records(s: State) {
    && DoneRecorded(s.db, s.lost)
    && (s.db.runs != [] && s.db.runs[0].id in s.replaced ==> s.lost == {})
    && (s.db.runs != [] && s.db.runs[0].id in s.runs ==> Recorded(s.runs[s.db.runs[0].id], s.db.results, s.lost))
  }

  lemma FinalIsTerminal(e: E.Exec, trace: seq<Event>)
    requires E.ExecInv(e, trace)
    ensures Terminal(e.result.status) <==> E.Finalized(e)
  {
  }

  lemma ActRecorded(rs: RunState, server: ServerId, a: E.Action, db: Db, lost: set<ServerId>, id: RunId, k: nat)
    requires CanAct(rs, server, a) && E.Control(rs.execs[server]) && Distinct(rs.servers)
    requires RowsFor(db.results, id, rs.servers) && k < |rs.servers| && rs.servers[k] == server
    requires rs.execs[server].result.runId == id && rs.execs[server].result.serverId == server
    requires rs.execs[server].saved ==> db.results[k] == rs.execs[server].result
    requires Recorded(rs, db.results, lost)
    ensures Recorded(Acted(rs, server, a), Persisted(db, rs.execs[server], a).results,
                     if E.Loses(rs.execs[server], a) then lost + {server} else lost)
  {
    var e := rs.execs[server];
    E.SettledStep(e, a);
    E.SavesOwnRow(e, a);
    if E.SavedBy(e, a).Some? {
      UpsertInPlace(db.results, e.result, id, rs.servers, k);
    }
    OneRecorded(rs, server, E.Apply(e, a), db.results, Persisted(db, e, a).results, lost,
                if E.Loses(e, a) then lost + {server} else lost, k);
    assert Acted(rs, server, a).execs == rs.execs[server := E.Apply(e, a)];
  }

  /** One execution and its row change; all others keep theirs. */
  lemma OneRecorded(rs: RunState, server: ServerId, e: E.Exec, rows: seq<RunResult>, rows': seq<RunResult>,
                    lost: set<ServerId>, lost': set<ServerId>, k: nat)
    requires Recorded(rs, rows, lost) && Distinct(rs.servers) && |rows| == |rs.servers| && server in rs.execs
    requires k < |rs.servers| && rs.servers[k] == server
    requires |rows'| == |rows| && forall i :: 0 <= i < |rows| && i != k ==> rows'[i] == rows[i]
    requires forall other :: other != server ==> (other in lost' <==> other in lost)
    requires server in lost' <==> E.Settled(e) && !e.saved
    requires Terminal(rows'[k].status) ==> e.saved
    ensures forall rs': RunState :: rs'.servers == rs.servers && rs'.execs == rs.execs[server := e] ==> Recorded(rs', rows', lost')
  {
    assert forall i :: 0 <= i < |rs.servers| && i != k ==> rs.servers[i] != server;
  }

  lemma ActRecords(s: State, id: RunId, server: ServerId, a: E.Action)
    requires Inv(s) && Records(s) && Enabled(s, Act(id, server, a))
    ensures Records(Apply(s, Act(id, server, a)))
  {
    var rs := s.runs[id];
    var e := rs.execs[server];
    assert RunInv(id, rs, s.db, s.targets, s.current, s.hub.log);
    E.SavesOwnRow(e, a);
    ActSessions(rs, server, a);
    var k :| 0 <= k < |rs.servers| && rs.servers[k] == server;
    ActRecorded(rs, server, a, s.db, s.lost, id, k);
  }

  /** When all executions have exited, the rows not lost are terminal. */
  lemma ExitedRecorded(s: State, id: RunId)
    requires Inv(s) && Records(s) && id in s.runs && AllExited(s.runs[id]) && |s.db.runs| == 1 && s.db.runs[0].id == id
    ensures forall i :: 0 <= i < |s.db.results| ==>
      (Terminal(s.db.results[i].status) <==> s.db.results[i].serverId !in s.lost)
  {
    var rs := s.runs[id];
    assert RunInv(id, rs, s.db, s.targets, s.current, s.hub.log);
    forall i | 0 <= i < |s.db.results|
      ensures Terminal(s.db.results[i].status) <==> s.db.results[i].serverId !in s.lost
    {
      var e := rs.execs[rs.servers[i]];
      FinalIsTerminal(e, Proj(s.hub.log, id, rs.servers[i]));
    }
  }

  lemma MarkRecords(s: State, id: RunId, ok: bool)
    requires Inv(s) && Records(s) && Enabled(s, MarkDone(id, ok))
    ensures Records(Apply(s, MarkDone(id, ok)))
  {
    assert RunInv(id, s.runs[id], s.db, s.targets, s.current, s.hub.log);
    ExitedRecorded(s, id);
  }

  lemma ReplaceRecords(s: State, id: RunId, healthy: bool)
    requires Inv(s) && Records(s) && Enabled(s, ReplaceRun(id, healthy))
    ensures Records(Apply(s, ReplaceRun(id, healthy)))
  {
    var d := s.guarded[id];
    var r := Replace(s.db, d.run, NewResults(id, d.servers));
    if healthy && r.Ok? {
      ReplaceRuns(s, id, r.value);
      assert GuardedInv(d, id, s.db, s.targets);
    }
  }

  lemma PublishRecords(s: State, id: RunId)
    requires Inv(s) && Records(s) && Enabled(s, Publish(id))
    ensures Records(Apply(s, Publish(id)))
  {
    assert ReplacedInv(s.replaced[id], id, s.db, s.targets);
  }

  /** A recovery's terminal rows are those it did not leave behind. */
  lemma RecoverRecords(db: Db, targets: map<RunId, seq<ServerId>>, now: Time, wrote: set<nat>, marked: bool)
    requires Sound(db, targets) && db.runs != [] && db.runs[0].status == RunRunning
    ensures var after := Recover(db, now, wrote, marked);
      && |after.results| == |db.results|
      && forall i :: 0 <= i < |after.results| ==>
           (Terminal(after.results[i].status) <==> after.results[i].serverId !in LeftStale(db, wrote))
  {
    RecoverRepairs(db, targets, now, wrote, marked);
    var servers := targets[db.runs[0].id];
    forall i, j | 0 <= i < |db.results| && 0 <= j < |db.results| && db.results[i].serverId == db.results[j].serverId
      ensures i == j
    {
      assert servers[i] == servers[j];
    }
  }

  lemma RestartDone(db: Db, targets: map<RunId, seq<ServerId>>, lost: set<ServerId>, now: Time, wrote: set<nat>, marked: bool)
    requires Sound(db, targets) && DoneRecorded(db, lost)
    ensures DoneRecorded(Recover(db, now, wrote, marked), LostAfter(db, lost, true, wrote))
  {
    LatestIsNewest(db.runs);
    RecoverRepairs(db, targets, now, wrote, marked);
    if db.runs != [] && db.runs[0].status == RunRunning {
      RecoverRecords(db, targets, now, wrote, marked);
    }
  }

  lemma RestartRecords(s: State, now: Time, loads: bool, wrote: set<nat>, marked: bool, survives: bool)
    requires Inv(s) && Records(s)
    ensures Records(Rebooted(s, if loads then Recover(s.db, now, wrote, marked) else s.db,
                             LostAfter(s.db, s.lost, loads, wrote), survives))
  {
    if loads {
      RestartDone(s.db, s.targets, s.lost, now, wrote, marked);
    }
  }

  /** A step that leaves the rows, and what the executions did with them, alone. */
  predicate LeavesRecords(step: Step) {
    !(step.Act? || step.MarkDone? || step.ReplaceRun? || step.Publish? || step.Crash? || step.Restart?)
  }

  lemma QuietRecords(s: State, step: Step)
    requires Records(s) && Enabled(s, step) && LeavesRecords(step)
    ensures Records(Apply(s, step))
  {
  }

  lemma StepKeepsRecords(s: State, step: Step)
    requires Inv(s) && Records(s) && Enabled(s, step)
    ensures Records(Apply(s, step))
  {
    if LeavesRecords(step) {
      QuietRecords(s, step);
    } else if step.Crash? || step.Restart? {
      RebootKeepsRecords(s, step);
    } else {
      RunStepKeepsRecords(s, step);
    }
  }

  lemma RebootKeepsRecords(s: State, step: Step)
    requires Inv(s) && Records(s) && Enabled(s, step) && (step.Crash? || step.Restart?)
    ensures Records(Apply(s, step))
  {
    if step.Restart? {
      RestartRecords(s, step.now, step.loads, step.wrote, step.marked, step.survives);
    }
  }

  lemma RunStepKeepsRecords(s: State, step: Step)
    requires Inv(s) && Records(s) && Enabled(s, step)
    requires step.Act? || step.MarkDone? || step.ReplaceRun? || step.Publish?
    ensures Records(Apply(s, step))
  {
    match step {
      case Act(id, server, a) => ActRecords(s, id, server, a);
      case MarkDone(id, ok) => MarkRecords(s, id, ok);
      case ReplaceRun(id, healthy) => ReplaceRecords(s, id, healthy);
      case Publish(id) => PublishRecords(s, id);
    }
  }

  /** Every interleaving keeps the records. */
  lemma {:induction false} RunKeepsRecords(interval: int, steps: seq<Step>)
    requires Run(Init(interval), steps).Some?
    ensures Records(Run(Init(interval), steps).value)
    decreases |steps|
  {
    if steps != [] {
      var n := |steps| - 1;
      RunKeepsRecords(interval, steps[..n]);
      RunKeepsInv(interval, steps[..n]);
      StepKeepsRecords(Run(Init(interval), steps[..n]).value, steps[n]);
    }
  }

  lemma ReachableRecords(s: State)
    requires Reachable(s)
    ensures Records(s)
  {
    var interval: int, steps: seq<Step> :| Run(Init(interval), steps) == Some(s);
    RunKeepsRecords(interval, steps);
  }

  /** The row of a finished execution is terminal exactly when its last persist succeeded. */
  lemma SavedMeansTerminal(s: State, id: RunId, i: nat)
    requires Reachable(s) && id in s.runs && s.db.runs != [] && s.db.runs[0].id == id && i < |s.runs[id].servers|
    requires s.runs[id].servers[i] in s.runs[id].execs && s.runs[id].execs[s.runs[id].servers[i]].pc == E.Exited
    ensures i < |s.db.results|
    ensures Terminal(s.db.results[i].status) <==> s.runs[id].execs[s.runs[id].servers[i]].saved
  {
    var server := s.runs[id].servers[i];
    SavedIsStored(s, id, i);
    RunIsSound(s, id);
    ReachableRecords(s);
    FinalIsTerminal(s.runs[id].execs[server], Proj(s.hub.log, id, server));
  }

  // ---- Crash recovery ----

  /** The process is gone: it crashes now, or has already. */
  function Down(s: State): State {
    if s.up then Apply(s, Crash) else s
  }

  /** A restart over a working store. */
  function Restarted(s: State, now: Time, wrote: set<nat>): State {
    Apply(Down(s), Restart(now, true, wrote, true, true))
  }

  /** The run in the store was cut short. */
  predicate CutShort(s: State) {
    s.db.runs != [] && s.db.runs[0].status == RunRunning
  }

  lemma RecoveredRows(db: Db, targets: map<RunId, seq<ServerId>>, lost: set<ServerId>, now: Time, wrote: set<nat>)
    requires Sound(db, targets) && DoneRecorded(db, lost)
    requires forall i :: 0 <= i < |db.results| ==> i in wrote
    ensures var after := Recover(db, now, wrote, true);
      && (forall i :: 0 <= i < |after.runs| ==> after.runs[i].status == RunDone)
      && |after.results| == |db.results|
      && (forall i :: 0 <= i < |db.results| && Terminal(db.results[i].status) ==> after.results[i] == db.results[i])
      && (forall i :: 0 <= i < |db.results| ==>
            (Terminal(after.results[i].status) <==> db.runs[0].status == RunRunning || db.results[i].serverId !in lost))
  {
    RecoveryCompletes(db, targets, now, wrote);
  }

  lemma RestartedState(s: State, now: Time, wrote: set<nat>)
    ensures var t := Restarted(s, now, wrote);
      t.up && t.current == None && t.targets == s.targets && t.db == Recover(s.db, now, wrote, true)
  {
  }

  /**
   * Crash recovery: wherever a process dies, in a recovery too, a restart over a working store marks
   * the run done and keeps finished results; a result is then terminal if and only if its run was cut
   * short or its last persist was not lost; and the next dispatch passes both the guard and the store.
   */
  lemma CrashRecovery(s: State, now: Time, wrote: set<nat>, id: RunId, script: string, ids: seq<ServerId>)
    requires Reachable(s) && id !in s.targets
    requires forall i :: 0 <= i < |s.db.results| ==> i in wrote
    ensures var t := Restarted(s, now, wrote);
      && (forall i :: 0 <= i < |t.db.runs| ==> t.db.runs[i].status == RunDone)
      && |t.db.results| == |s.db.results|
      && (forall i :: 0 <= i < |s.db.results| && Terminal(s.db.results[i].status) ==> t.db.results[i] == s.db.results[i])
      && (forall i :: 0 <= i < |s.db.results| ==>
            (Terminal(t.db.results[i].status) <==> CutShort(s) || s.db.results[i].serverId !in s.lost))
    ensures var t := Restarted(s, now, wrote);
      && Enabled(t, Guard(id, script, ids, now))
      && var u := Apply(t, Guard(id, script, ids, now));
         Enabled(u, ReplaceRun(id, true)) && id in Apply(u, ReplaceRun(id, true)).replaced
  {
    ReachableInv(s);
    ReachableRecords(s);
    RecoveredRows(s.db, s.targets, s.lost, now, wrote);
    RestartedState(s, now, wrote);
    IdleAccepts(Restarted(s, now, wrote), id, script, ids, now);
  }

  /** A process without a current run, over a store without a running one, accepts a dispatch. */
  lemma IdleAccepts(t: State, id: RunId, script: string, ids: seq<ServerId>, now: Time)
    requires t.up && t.current == None && id !in t.targets
    requires forall i :: 0 <= i < |t.db.runs| ==> t.db.runs[i].status == RunDone
    ensures Enabled(t, Guard(id, script, ids, now))
    ensures var u := Apply(t, Guard(id, script, ids, now));
      Enabled(u, ReplaceRun(id, true)) && id in Apply(u, ReplaceRun(id, true)).replaced
  {
    NoneRunningAccepts(t.db, BatchRun(id, script, RunRunning, now), NewResults(id, Dedupe(ids)));
  }

  /** The step is not a failing last attempt to persist a result, in its execution or in a recovery. */
  predicate Harmless(s: State, step: Step)
    requires Enabled(s, step)
  {
    match step
    case Act(id, server, a) => !E.Loses(s.runs[id].execs[server], a)
    case Restart(_, loads, wrote, _, _) => loads ==> forall i :: 0 <= i < |s.db.results| ==> i in wrote
    case _ => true
  }

  ghost predicate Faultless(interval: int, steps: seq<Step>)
    requires Run(Init(interval), steps).Some?
  {
    steps == [] ||
    (Faultless(interval, steps[..|steps| - 1]) &&
     Harmless(Run(Init(interval), steps[..|steps| - 1]).value, steps[|steps| - 1]))
  }

  lemma HarmlessLosesNothing(s: State, step: Step)
    requires Enabled(s, step) && Harmless(s, step) && s.lost == {}
    ensures Apply(s, step).lost == {}
  {
  }

  /** Without such a failure nothing is lost, so that after a crash every result ends terminal. */
  lemma {:induction false} FaultlessLosesNothing(interval: int, steps: seq<Step>)
    requires Run(Init(interval), steps).Some? && Faultless(interval, steps)
    ensures Run(Init(interval), steps).value.lost == {}
    decreases |steps|
  {
    if steps != [] {
      var n := |steps| - 1;
      FaultlessLosesNothing(interval, steps[..n]);
      HarmlessLosesNothing(Run(Init(interval), steps[..n]).value, steps[n]);
    }
  }

  lemma FaultlessRecovery(interval: int, steps: seq<Step>, now: Time, wrote: set<nat>)
    requires Run(Init(interval), steps).Some? && Faultless(interval, steps)
    requires forall i :: 0 <= i < |Run(Init(interval), steps).value.db.results| ==> i in wrote
    ensures var t := Restarted(Run(Init(interval), steps).value, now, wrote);
      forall i :: 0 <= i < |t.db.results| ==> Terminal(t.db.results[i].status)
  {
    var s := Run(Init(interval), steps).value;
    FaultlessLosesNothing(interval, steps);
    var id := Unused(s.targets.Keys);
    assert Reachable(s);
    CrashRecovery(s, now, wrote, id, "", []);
  }

  // ---- What is lost stays lost ----

  lemma DoneIsIdle(s: State, id: RunId)
    requires Inv(s) && !CutShort(s) && id in s.runs
    ensures s.runs[id].waiter != Waiting && AllExited(s.runs[id])
  {
    assert RunInv(id, s.runs[id], s.db, s.targets, s.current, s.hub.log);
  }

  /** A run that is not running is not touched again, not by a restart either, until a dispatch replaces it. */
  lemma DoneStepKeepsStore(s: State, step: Step)
    requires Inv(s) && !CutShort(s) && Enabled(s, step) && !step.ReplaceRun?
    ensures Apply(s, step).db == s.db && Apply(s, step).lost == s.lost
  {
    if step.Restart? {
      DoneRestart(s, step);
    } else if step.Act? || step.MarkDone? {
      DoneIsIdle(s, step.id);
    } else {
      DoneQuiet(s, step);
    }
  }

  lemma DoneQuiet(s: State, step: Step)
    requires Enabled(s, step) && !step.Restart? && !step.Act? && !step.MarkDone? && !step.ReplaceRun?
    ensures Apply(s, step).db == s.db && Apply(s, step).lost == s.lost
  {
  }

  lemma DoneRestart(s: State, step: Step)
    requires Inv(s) && !CutShort(s) && Enabled(s, step) && step.Restart?
    ensures Apply(s, step).db == s.db && Apply(s, step).lost == s.lost
  {
    RecoverRepairs(s.db, s.targets, step.now, step.wrote, step.marked);
    LatestIsNewest(s.db.runs);
  }

  lemma {:induction false} DoneUntilDispatch(s: State, steps: seq<Step>)
    requires Inv(s) && !CutShort(s) && Run(s, steps).Some?
    requires forall i :: 0 <= i < |steps| ==> !steps[i].ReplaceRun?
    ensures Inv(Run(s, steps).value) && Run(s, steps).value.db == s.db && Run(s, steps).value.lost == s.lost
    decreases |steps|
  {
    if steps != [] {
      var n := |steps| - 1;
      DoneUntilDispatch(s, steps[..n]);
      DoneStepKeepsStore(Run(s, steps[..n]).value, steps[n]);
      StepKeepsInv(Run(s, steps[..n]).value, steps[n]);
    }
  }

  /** So a result can stay unfinished in a run marked done, and no restart repairs it. */
  lemma LostResultHappens() returns (s: State)
    ensures Reachable(s) && s.up && |s.db.runs| == 1 && s.db.runs[0].status == RunDone
    ensures s.db.results != [] && !Terminal(s.db.results[0].status)
    ensures forall now: Time, wrote: set<nat> :: Restarted(s, now, wrote).db == s.db
  {
    var t, e := FirstFails(false);
    RunIsSound(t, 0);
    UnsavedRow(t, e);
    s := Apply(t, MarkDone(0, true));
    ReachStep(t, MarkDone(0, true));
    RestartKeepsDone(s);
  }

  lemma RestartKeepsDone(s: State)
    requires Reachable(s) && !CutShort(s)
    ensures forall now: Time, wrote: set<nat> :: Restarted(s, now, wrote).db == s.db
  {
    ReachableInv(s);
    forall now: Time, wrote: set<nat> ensures Restarted(s, now, wrote).db == s.db {
      RecoverRepairs(s.db, s.targets, now, wrote, true);
    }
  }

  lemma UnsavedRow(t: State, e: E.Exec)
    requires Executing(t, e) && e.pc == E.Exited && !e.saved
    ensures t.db.results != [] && !Terminal(t.db.results[0].status)
  {
    ReachableRecords(t);
    RunIsSound(t, 0);
    var servers := t.runs[0].servers;
    assert forall server :: server in t.runs[0].execs ==> server == 7;
    assert 7 in t.runs[0].execs.Keys;
    assert servers[0] == 7;
  }
}
