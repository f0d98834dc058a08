/**
 * The whole batch-run protocol as a transition system. A step is one critical section, one store
 * statement or one local action of one goroutine; any enabled step may come next, so a sequence of
 * steps is an interleaving of dispatches, executions, cancels, completion waiters, subscribers,
 * crashes and restarts.
 */
module BatchProtocol {
  import opened Prelude
  import opened BatchTypes
  import opened BatchStore
  import opened BatchFanout
  import E = BatchExecution
  import BatchOutput

  /** A Dispatch call that has passed the in-memory guard. */
  datatype Dispatching = Dispatching(run: BatchRun, servers: seq<ServerId>)

  /** waitForCompletion: waiting for the executions, store marked, done flag set, channels closed. */
  datatype Waiter = Waiting | Marked | Finishing | Finished

  /** The in-memory state of a published run; `swept` remembers that a cancel sweep has ended. */
  datatype RunState = RunState(
    servers: seq<ServerId>,
    execs: map<ServerId, E.Exec>,
    sessions: set<ServerId>,
    cancelled: bool,
    swept: bool,
    waiter: Waiter)

  /**
   * `targets` remembers the target servers of every run ever created; `lost` the servers of the stored
   * run whose final result the store did not take.
   */
  datatype State = State(
    db: Db,
    targets: map<RunId, seq<ServerId>>,
    lost: set<ServerId>,
    up: bool,
    interval: int,
    guarded: map<RunId, Dispatching>,
    replaced: map<RunId, Dispatching>,
    current: Option<RunId>,
    runs: map<RunId, RunState>,
    cancelling: set<RunId>,
    subscribing: map<ChanId, RunId>,
    hub: Hub)

  datatype Step =
    | Guard(id: RunId, script: string, ids: seq<ServerId>, now: Time)
    | ReplaceRun(id: RunId, healthy: bool)
    | Publish(id: RunId)
    | Act(id: RunId, server: ServerId, action: E.Action)
    | CaptureCancel(id: RunId)
    | CancelContext(id: RunId)
    | Sweep(id: RunId)
    | MarkDone(id: RunId, ok: bool)
    | SetDoneFlag(id: RunId)
    | CloseSubscribers(id: RunId)
    | SubscribeCheck(chan: ChanId, id: RunId)
    | SubscribeAttach(chan: ChanId)
    | Unsubscribe(chan: ChanId)
    | Receive(chan: ChanId)
    | Crash
    | Restart(now: Time, loads: bool, wrote: set<nat>, marked: bool, survives: bool)

  /** The endpoint removes duplicate server IDs, keeping first occurrences in order. */
  function Dedupe(ids: seq<ServerId>): seq<ServerId> {
    if ids == [] then []
    else
      var n := |ids| - 1;
      Dedupe(ids[..n]) + if ids[n] in ids[..n] then [] else [ids[n]]
  }

  function NewResults(id: RunId, servers: seq<ServerId>): seq<RunResult> {
    seq(|servers|, i requires 0 <= i < |servers| => PendingResult(id, servers[i]))
  }

  function NewRunState(id: RunId, servers: seq<ServerId>, interval: int): RunState {
    RunState(servers, map s | s in servers :: E.Start(id, s, interval), {}, false, false, Waiting)
  }

  predicate Done(rs: RunState) {
    rs.waiter.Finishing? || rs.waiter.Finished?
  }

  /** Every check of ctx.Err() reads the run's cancel flag. */
  predicate SeesContext(a: E.Action, cancelled: bool) {
    match a
    case Check(c) => c == cancelled
    case Decide(c, _) => c == cancelled
    case Finalize(c, _) => c == cancelled
    case _ => true
  }

  function Swept(rs: RunState): RunState {
    rs.(swept := true,
        execs := map s | s in rs.execs :: if s in rs.sessions then rs.execs[s].(session := E.Closed) else rs.execs[s])
  }

  // ---- Recovery at startup ----

  predicate Stale(r: RunResult) {
    r.status == Pending || r.status == Running
  }

  function Interrupted(r: RunResult, now: Time): RunResult {
    r.(status := Failed, error := INTERRUPTED, finishedAt := Some(now))
  }

  /** The loop of finalizeStaleRun; `wrote` says which of its upserts reached the store. */
  function UpsertStale(table: seq<RunResult>, rows: seq<RunResult>, now: Time, wrote: set<nat>): seq<RunResult> {
    if rows == [] then table
    else
      var n := |rows| - 1;
      var t := UpsertStale(table, rows[..n], now, wrote);
      if Stale(rows[n]) && n in wrote then Upsert(t, Interrupted(rows[n], now)) else t
  }

  /** finalizeStaleRun as a whole; a crash on the way is a smaller `wrote` and an unmarked run. */
  function Recover(db: Db, now: Time, wrote: set<nat>, marked: bool): Db {
    match Latest(db.runs)
    case None => db
    case Some(run) =>
      if run.status != RunRunning then db
      else
        var db' := db.(results := UpsertStale(db.results, ListFor(db.results, run.id), now, wrote));
        if marked then SetDone(db', run.id) else db'
  }

  /** The servers whose stale row a recovery leaves behind. */
  function LeftStale(db: Db, wrote: set<nat>): set<ServerId> {
    set i | 0 <= i < |db.results| && Stale(db.results[i]) && i !in wrote :: db.results[i].serverId
  }

  /** A restart that recovers a run settles all its results but those; any other changes nothing. */
  function LostAfter(db: Db, lost: set<ServerId>, loads: bool, wrote: set<nat>): set<ServerId> {
    match Latest(db.runs)
    case None => lost
    case Some(run) => if loads && run.status == RunRunning then LeftStale(db, wrote) else lost
  }

  // ---- The transition relation ----

  predicate Enabled(s: State, step: Step) {
    if step.Restart? then !s.up
    else s.up && match step
      case Guard(id, _, _, _) =>
        && id !in s.targets
        && (s.current.None? || (s.current.value in s.runs && Done(s.runs[s.current.value])))
      case ReplaceRun(id, _) => id in s.guarded
      case Publish(id) => id in s.replaced
      case Act(id, server, a) => id in s.runs && CanAct(s.runs[id], server, a)
      case CaptureCancel(id) => s.current == Some(id) && id in s.runs && !Done(s.runs[id])
      case CancelContext(id) => id in s.cancelling && id in s.runs
      case Sweep(id) => id in s.cancelling && id in s.runs && s.runs[id].cancelled
      case MarkDone(id, _) =>
        && id in s.runs && s.runs[id].waiter == Waiting
        && forall server :: server in s.runs[id].execs ==> s.runs[id].execs[server].pc == E.Exited
      case SetDoneFlag(id) => id in s.runs && s.runs[id].waiter == Marked
      case CloseSubscribers(id) => id in s.runs && s.runs[id].waiter == Finishing
      case SubscribeCheck(c, id) => s.current == Some(id) && id in s.runs && c !in s.subscribing && c !in s.hub.chans
      case SubscribeAttach(c) => c in s.subscribing && c !in s.hub.chans && s.subscribing[c] in s.runs
      case Unsubscribe(c) => c in s.hub.chans
      case Receive(c) => c in s.hub.chans && s.hub.chans[c].queue != []
      case Crash => true
  }

  function ApplyReplace(s: State, id: RunId, healthy: bool): State
    requires id in s.guarded
  {
    var d := s.guarded[id];
    var s' := s.(guarded := s.guarded - {id});
    match Replace(s.db, d.run, NewResults(id, d.servers))
    case Ok(db) => if healthy then s'.(db := db, lost := {}, replaced := s.replaced[id := d]) else s'
    case Err(_) => s'
  }

  predicate CanAct(rs: RunState, server: ServerId, a: E.Action) {
    && server in rs.execs
    && E.Enabled(rs.execs[server], a)
    && |rs.execs[server].result.output| <= BatchOutput.MAX_OUTPUT
    && SeesContext(a, rs.cancelled)
  }

  function Acted(rs: RunState, server: ServerId, a: E.Action): RunState
    requires CanAct(rs, server, a)
  {
    rs.(execs := rs.execs[server := E.Apply(rs.execs[server], a)],
        sessions := if a.Register? then rs.sessions + {server}
                    else if a.Deregister? then rs.sessions - {server}
                    else rs.sessions)
  }

  function Persisted(db: Db, e: E.Exec, a: E.Action): Db
    requires E.Enabled(e, a)
  {
    match E.SavedBy(e, a) case None => db case Some(r) => db.(results := Upsert(db.results, r))
  }

  function Apply(s: State, step: Step): State
    requires Enabled(s, step)
  {
    match step
    case Guard(id, script, ids, now) =>
      s.(targets := s.targets[id := Dedupe(ids)],
         guarded := s.guarded[id := Dispatching(BatchRun(id, script, RunRunning, now), Dedupe(ids))])
    case ReplaceRun(id, healthy) => ApplyReplace(s, id, healthy)
    case Publish(id) =>
      s.(replaced := s.replaced - {id}, current := Some(id),
         runs := s.runs[id := NewRunState(id, s.replaced[id].servers, s.interval)])
    case Act(id, server, a) =>
      var e := s.runs[id].execs[server];
      s.(runs := s.runs[id := Acted(s.runs[id], server, a)],
         db := Persisted(s.db, e, a),
         lost := if E.Loses(e, a) then s.lost + {server} else s.lost,
         hub := BroadcastAll(s.hub, id, E.EventsOf(e, a)))
    case CaptureCancel(id) => s.(cancelling := s.cancelling + {id})
    case CancelContext(id) => s.(runs := s.runs[id := s.runs[id].(cancelled := true)])
    case Sweep(id) => s.(runs := s.runs[id := Swept(s.runs[id])])
    case MarkDone(id, ok) =>
      s.(runs := s.runs[id := s.runs[id].(waiter := Marked)], db := if ok then SetDone(s.db, id) else s.db)
    case SetDoneFlag(id) => s.(runs := s.runs[id := s.runs[id].(waiter := Finishing)])
    case CloseSubscribers(id) =>
      s.(runs := s.runs[id := s.runs[id].(waiter := Finished)], hub := CloseAll(s.hub))
    case SubscribeCheck(c, id) => s.(subscribing := s.subscribing[c := id])
    case SubscribeAttach(c) =>
      var id := s.subscribing[c];
      s.(subscribing := s.subscribing - {c}, hub := Attach(s.hub, c, id, s.runs[id].waiter == Finished))
    case Unsubscribe(c) => s.(hub := Detach(s.hub, c))
    case Receive(c) => s.(hub := Take(s.hub, c))
    case Crash => Rebooted(s, s.db, s.lost, false)
    case Restart(now, loads, wrote, marked, survives) =>
      Rebooted(s, if loads then Recover(s.db, now, wrote, marked) else s.db,
               LostAfter(s.db, s.lost, loads, wrote), survives)
  }

  /** Only the store and the history survive a process. */
  function Rebooted(s: State, db: Db, lost: set<ServerId>, up: bool): State {
    State(db, s.targets, lost, up, s.interval, map[], map[], None, map[], {}, map[], Hub([], map[], {}))
  }

  function Init(interval: int): State {
    State(Db([], []), map[], {}, true, interval, map[], map[], None, map[], {}, map[], Hub([], map[], {}))
  }

  /** The state an interleaving leads to, or None when one of its steps is not enabled. */
  function Run(s: State, steps: seq<Step>): Option<State> {
    if steps == [] then Some(s)
    else match Run(s, steps[..|steps| - 1])
      case None => None
      case Some(t) => if Enabled(t, steps[|steps| - 1]) then Some(Apply(t, steps[|steps| - 1])) else None
  }

  // ---- Dedupe ----

  lemma {:induction false} DedupeDistinct(ids: seq<ServerId>)
    ensures Distinct(Dedupe(ids))
    ensures forall x :: x in Dedupe(ids) <==> x in ids
  {
    if ids != [] {
      DedupeDistinct(ids[..|ids| - 1]);
      assert ids == ids[..|ids| - 1] + [ids[|ids| - 1]];
    }
  }

  method DedupeStrings(ids: seq<ServerId>) returns (out: seq<ServerId>)
    ensures out == Dedupe(ids)
  {
    var seen: set<ServerId> := {};
    out := [];
    for i := 0 to |ids|
      invariant out == Dedupe(ids[..i])
      invariant forall x :: x in seen <==> x in ids[..i]
    {
      assert ids[..i + 1][..i] == ids[..i];
      if ids[i] !in seen {
        seen := seen + {ids[i]};
        out := out + [ids[i]];
      }
    }
    assert ids[..|ids|] == ids;
  }
}
