/** The browser's copy of a run: the reducer's WS_EVENT fold and what it has in common with the service. */
module BatchClient {
  import opened Prelude
  import opened BatchTypes
  import opened BatchFanout
  import opened BatchProtocol
  import opened BatchInvariant
  import opened BatchOutput
  import opened BatchTheorems
  import E = BatchExecution

  datatype ClientResult = ClientResult(
    server: ServerId,
    status: ResultStatus,
    exitCode: Option<int>,
    output: seq<Byte>,
    truncated: bool,
    error: Option<string>,
    finishedAt: Option<Time>)

  /** A frame after JSON: zero values are omitted from the wire. */
  datatype Frame =
    | OutputFrame(server: ServerId, data: seq<Byte>)
    | StatusFrame(server: ServerId, status: ResultStatus, exitCode: Option<int>, truncated: Option<bool>,
                  error: Option<string>, finishedAt: Option<Time>)

  function OmitEmpty(s: string): Option<string> {
    if s == "" then None else Some(s)
  }

  function Wire(ev: Event): Frame {
    match ev
    case Output(server, data) => OutputFrame(server, data)
    case Status(server, status, exitCode, truncated, error, finishedAt) =>
      StatusFrame(server, status, exitCode, if truncated then Some(true) else None, OmitEmpty(error), finishedAt)
  }

  /** JavaScript's `a ?? b`. */
  function Coalesce<T>(a: Option<T>, b: Option<T>): Option<T> {
    if a.Some? then a else b
  }

  function OnFrame(r: ClientResult, f: Frame): ClientResult {
    if r.server != f.server then r
    else match f
      case OutputFrame(_, data) => r.(output := r.output + data)
      case StatusFrame(_, status, exitCode, truncated, error, finishedAt) =>
        r.(status := status,
           exitCode := Coalesce(exitCode, r.exitCode),
           truncated := if truncated.Some? then truncated.value else r.truncated,
           error := Coalesce(error, r.error),
           finishedAt := Coalesce(finishedAt, r.finishedAt))
  }

  /** The WS_EVENT case of the reducer. */
  function WsEvent(results: seq<ClientResult>, f: Frame): seq<ClientResult> {
    seq(|results|, i requires 0 <= i < |results| => OnFrame(results[i], f))
  }

  function Fold(results: seq<ClientResult>, evs: seq<Event>): seq<ClientResult> {
    if evs == [] then results else WsEvent(Fold(results, evs[..|evs| - 1]), Wire(evs[|evs| - 1]))
  }

  function FoldOne(r: ClientResult, evs: seq<Event>): ClientResult {
    if evs == [] then r else OnFrame(FoldOne(r, evs[..|evs| - 1]), Wire(evs[|evs| - 1]))
  }

  /** The REST form of a result, which DISPATCH_SUCCESS and SYNC install. */
  function FromRest(r: RunResult): ClientResult {
    ClientResult(r.serverId, r.status, r.exitCode, r.output, r.truncated, OmitEmpty(r.error), r.finishedAt)
  }

  function FromDispatch(rows: seq<RunResult>): seq<ClientResult> {
    seq(|rows|, i requires 0 <= i < |rows| => FromRest(rows[i]))
  }

  function RunEvents(log: seq<Tagged>, id: RunId): seq<Event> {
    if log == [] then []
    else
      var n := |log| - 1;
      RunEvents(log[..n], id) + if log[n].run == id then [log[n].event] else []
  }

  lemma FoldSnoc(rows: seq<ClientResult>, r: ClientResult, evs: seq<Event>, ev: Event)
    ensures Fold(rows, evs + [ev]) == WsEvent(Fold(rows, evs), Wire(ev))
    ensures FoldOne(r, evs + [ev]) == OnFrame(FoldOne(r, evs), Wire(ev))
  {
    assert (evs + [ev])[..|evs|] == evs;
  }

  lemma OtherServer(r: ClientResult, ev: Event)
    ensures r.server != ev.server ==> OnFrame(r, Wire(ev)) == r
    ensures OnFrame(r, Wire(ev)).server == r.server
  {
  }

  /** Each server's entry depends only on its own events, however the servers interleave. */
  lemma {:induction false} FoldProjects(rows: seq<ClientResult>, log: seq<Tagged>, id: RunId, i: nat)
    requires i < |rows|
    ensures |Fold(rows, RunEvents(log, id))| == |rows|
    ensures Fold(rows, RunEvents(log, id))[i] == FoldOne(rows[i], Proj(log, id, rows[i].server))
    ensures Fold(rows, RunEvents(log, id))[i].server == rows[i].server
    decreases |log|
  {
    if log != [] {
      var n := |log| - 1;
      var ev, evs, mine := log[n].event, RunEvents(log[..n], id), Proj(log[..n], id, rows[i].server);
      FoldProjects(rows, log[..n], id, i);
      FoldSnoc(rows, rows[i], evs, ev);
      FoldSnoc(rows, rows[i], mine, ev);
      OtherServer(Fold(rows, evs)[i], ev);
      assert evs + [] == evs && mine + [] == mine;
    }
  }

  // ---- What a fold makes of any events ----

  /** The last value given wins; without one the old value stays. */
  ghost predicate LastWins<T>(given: seq<Option<T>>, before: Option<T>, after: Option<T>) {
    || (after == before && forall i :: 0 <= i < |given| ==> given[i] == None)
    || exists k :: 0 <= k < |given| && given[k].Some? && after == given[k]
                   && forall i :: k < i < |given| ==> given[i] == None
  }

  lemma LastWinsNext<T>(given: seq<Option<T>>, next: Option<T>, before: Option<T>, after: Option<T>)
    requires LastWins(given, before, after)
    ensures LastWins(given + [next], before, if next.Some? then next else after)
  {
    var all := given + [next];
    if next.Some? {
      assert all[|given|] == next;
    } else if k :| 0 <= k < |given| && given[k].Some? && after == given[k] && forall i :: k < i < |given| ==> given[i] == None {
      assert all[k] == given[k];
    }
  }

  function StatusGiven(ev: Event, server: ServerId): Option<ResultStatus> {
    if ev.Status? && ev.server == server then Some(ev.status) else None
  }

  function ExitGiven(ev: Event, server: ServerId): Option<int> {
    if ev.Status? && ev.server == server then ev.exitCode else None
  }

  function ErrorGiven(ev: Event, server: ServerId): Option<string> {
    if ev.Status? && ev.server == server && ev.error != "" then Some(ev.error) else None
  }

  function FinishGiven(ev: Event, server: ServerId): Option<Time> {
    if ev.Status? && ev.server == server then ev.finishedAt else None
  }

  function All<T>(evs: seq<Event>, given: Event -> Option<T>): seq<Option<T>> {
    seq(|evs|, i requires 0 <= i < |evs| => given(evs[i]))
  }

  /** All events of an entry's own server, whoever sent them and in any number, told field by field. */
  ghost predicate Folded(before: ClientResult, evs: seq<Event>, after: ClientResult) {
    var id := before.server;
    && after.server == id
    && LastWins(All(evs, ev => StatusGiven(ev, id)), Some(before.status), Some(after.status))
    && LastWins(All(evs, ev => ExitGiven(ev, id)), before.exitCode, after.exitCode)
    && LastWins(All(evs, ev => ErrorGiven(ev, id)), before.error, after.error)
    && LastWins(All(evs, ev => FinishGiven(ev, id)), before.finishedAt, after.finishedAt)
    && (after.truncated <==> before.truncated || exists i :: 0 <= i < |evs| && Truncates(evs[i], id))
  }

  predicate Truncates(ev: Event, server: ServerId) {
    ev.Status? && ev.server == server && ev.truncated
  }

  lemma AllSnoc<T>(evs: seq<Event>, given: Event -> Option<T>)
    requires evs != []
    ensures All(evs, given) == All(evs[..|evs| - 1], given) + [given(evs[|evs| - 1])]
  {
  }

  lemma {:induction false} FoldMeans(before: ClientResult, evs: seq<Event>)
    ensures Folded(before, evs, FoldOne(before, evs))
    decreases |evs|
  {
    if evs != [] {
      var n := |evs| - 1;
      FoldMeans(before, evs[..n]);
      FoldedNext(before, evs, FoldOne(before, evs[..n]));
    }
  }

  lemma FoldedNext(before: ClientResult, evs: seq<Event>, r: ClientResult)
    requires evs != [] && Folded(before, evs[..|evs| - 1], r)
    ensures Folded(before, evs, OnFrame(r, Wire(evs[|evs| - 1])))
  {
    var n, id := |evs| - 1, before.server;
    var ev, init := evs[n], evs[..n];
    AllSnoc(evs, e => StatusGiven(e, id));
    AllSnoc(evs, e => ExitGiven(e, id));
    AllSnoc(evs, e => ErrorGiven(e, id));
    AllSnoc(evs, e => FinishGiven(e, id));
    LastWinsNext(All(init, e => StatusGiven(e, id)), StatusGiven(ev, id), Some(before.status), Some(r.status));
    LastWinsNext(All(init, e => ExitGiven(e, id)), ExitGiven(ev, id), before.exitCode, r.exitCode);
    LastWinsNext(All(init, e => ErrorGiven(e, id)), ErrorGiven(ev, id), before.error, r.error);
    LastWinsNext(All(init, e => FinishGiven(e, id)), FinishGiven(ev, id), before.finishedAt, r.finishedAt);
  }

  /** The client's entry for an execution that has broadcast what it has. */
  function ViewOf(e: E.Exec): ClientResult {
    var r := e.result;
    if E.TerminalSent(e) then FromRest(r).(output := Flatten(e.sent))
    else
      ClientResult(r.serverId, if E.Announced(e) then Running else Pending, None, Flatten(e.sent), false, None, None)
  }

  lemma {:induction false} FoldOutputs(r: ClientResult, server: ServerId, head: seq<Event>, chunks: seq<seq<Byte>>)
    requires FoldOne(r, head).server == server
    ensures FoldOne(r, head + E.Outputs(server, chunks))
         == FoldOne(r, head).(output := FoldOne(r, head).output + Flatten(chunks))
    decreases |chunks|
  {
    var evs := head + E.Outputs(server, chunks);
    if chunks == [] {
      assert evs == head;
    } else {
      var n := |chunks| - 1;
      assert evs[..|evs| - 1] == head + E.Outputs(server, chunks[..n]);
      FoldOutputs(r, server, head, chunks[..n]);
    }
  }

  lemma ViewFolds(e: E.Exec, trace: seq<Event>)
    requires E.ExecInv(e, trace)
    ensures FoldOne(FromRest(PendingResult(e.result.runId, e.result.serverId)), trace) == ViewOf(e)
  {
    var server := e.result.serverId;
    var r := FromRest(PendingResult(e.result.runId, server));
    var head := if E.Announced(e) then [E.RunningEvent(server)] else [];
    var body := head + E.Outputs(server, e.sent);
    assert head != [] ==> head[..0] == [];
    FoldOutputs(r, server, head, e.sent);
    if E.TerminalSent(e) {
      assert trace == body + [StatusOf(e.result)] && trace[..|trace| - 1] == body;
      assert FoldOne(r, body).error == None;
    } else {
      assert trace == body;
    }
  }

  /**
   * Client/server simulation: in every reachable state, folding all of a run's events so far through
   * the reducer, from the results the dispatch returned, gives each server exactly the view of its
   * execution. For a finished execution that is the service's final status, exit code, error,
   * truncated flag and finish time, and the service's output is the first 64 KiB of the client's.
   */
  lemma ClientSimulates(s: State, id: RunId, i: nat)
    requires Reachable(s) && id in s.runs && i < |s.runs[id].servers|
    ensures s.runs[id].servers[i] in s.runs[id].execs
    ensures |Fold(FromDispatch(NewResults(id, s.runs[id].servers)), RunEvents(s.hub.log, id))| == |s.runs[id].servers|
    ensures var e := s.runs[id].execs[s.runs[id].servers[i]];
      var c := Fold(FromDispatch(NewResults(id, s.runs[id].servers)), RunEvents(s.hub.log, id))[i];
      && c == ViewOf(e)
      && (e.pc == E.Exited ==>
            && c.status == e.result.status && c.exitCode == e.result.exitCode && c.error == OmitEmpty(e.result.error)
            && c.truncated == e.result.truncated && c.finishedAt == e.result.finishedAt
            && e.result.output == Capped(c.output))
  {
    ReachableInv(s);
    var rs := s.runs[id];
    assert RunInv(id, rs, s.db, s.targets, s.current, s.hub.log);
    var server := rs.servers[i];
    FoldProjects(FromDispatch(NewResults(id, rs.servers)), s.hub.log, id, i);
    assert E.ExecInv(rs.execs[server], Proj(s.hub.log, id, server));
    ViewFolds(rs.execs[server], Proj(s.hub.log, id, server));
  }

  /**
   * The two channels agree: for a finished execution whose last persist succeeded, the REST snapshot
   * a SYNC installs differs from the folded stream at most in output beyond the cap.
   */
  lemma StreamMeetsSnapshot(s: State, id: RunId, i: nat)
    requires Reachable(s) && id in s.runs && i < |s.runs[id].servers|
    requires s.db.runs != [] && s.db.runs[0].id == id
    requires s.runs[id].servers[i] in s.runs[id].execs
    requires s.runs[id].execs[s.runs[id].servers[i]].pc == E.Exited && s.runs[id].execs[s.runs[id].servers[i]].saved
    ensures i < |s.db.results|
    ensures |Fold(FromDispatch(NewResults(id, s.runs[id].servers)), RunEvents(s.hub.log, id))| == |s.runs[id].servers|
    ensures var c := Fold(FromDispatch(NewResults(id, s.runs[id].servers)), RunEvents(s.hub.log, id))[i];
      FromRest(s.db.results[i]) == c.(output := Capped(c.output))
  {
    ClientSimulates(s, id, i);
    SavedIsStored(s, id, i);
  }
}
