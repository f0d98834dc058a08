/**
 * Events carry no run ID and every attached channel is offered all of them. So once a run is marked
 * done, the next run's events can reach its channels, and a browser takes them for the old run's.
 */
module BatchForeign {
  import opened Prelude
  import opened BatchTypes
  import opened BatchFanout
  import opened BatchProtocol
  import opened BatchInvariant
  import opened BatchTheorems
  import opened BatchOvertake
  import opened BatchClient
  import opened BatchStreams
  import E = BatchExecution
  import BatchOutput
  import BatchRecords

  // ---- Every execution can be brought to its end ----

  /** An action that takes an execution further, whatever its environment has in store for it. */
  function Turn(e: E.Exec, cancelled: bool): E.Action {
    match e.pc
    case Created => E.Begin(0)
    case PersistStart => E.Save(true)
    case WriteScript => E.Script(Some(""))
    case OpenSession => E.OpenPty(Some(""))
    case RegisterSession => E.Register
    case CheckContext => E.Check(cancelled)
    case Abandon => E.CloseAbandoned
    case Pump => PumpTurn(e, cancelled)
    case Fail(_) => E.Finalize(cancelled, 0)
    case PersistFailure => E.Save(true)
    case PersistOutcome => E.SaveOutcome(None)
    case PersistAgain => E.Save(true)
    case Unregister => E.Deregister
    case CloseSession => E.Close
    case _ => E.Emit
  }

  function PumpTurn(e: E.Exec, cancelled: bool): E.Action {
    match e.reader
    case Reading => E.ReadEnd
    case Sending(_, _) => E.Emit
    case Flushing(_) => E.Flush(0, 0, true)
    case Drained => if e.waited.None? then E.WaitReturns(E.WaitErr("")) else E.Decide(cancelled, 0)
  }

  /** How many turns it is away from its end, at most. */
  function Rank(e: E.Exec): nat {
    match e.pc
    case Created => 20
    case PersistStart => 19
    case AnnounceStart => 18
    case WriteScript => 17
    case OpenSession => 16
    case RegisterSession => 15
    case CheckContext => 14
    case Abandon => 7
    case Pump => 7 + (if e.waited.None? then 1 else 0) + ReaderRank(e.reader)
    case Fail(_) => 6
    case PersistOutcome => 5
    case PersistFailure => 4
    case PersistAgain => 4
    case Announce => 3
    case Unregister => 2
    case CloseSession => 1
    case Exited => 0
  }

  function ReaderRank(r: E.Reader): nat {
    match r
    case Sending(_, _) => 3
    case Flushing(_) => 2
    case Reading => 1
    case Drained => 0
  }

  lemma TurnLowers(e: E.Exec, cancelled: bool)
    requires e.pc != E.Exited && |e.result.output| <= BatchOutput.MAX_OUTPUT
    requires e.pc.CheckContext? ==> e.reader == E.Reading
    ensures E.Enabled(e, Turn(e, cancelled)) && SeesContext(Turn(e, cancelled), cancelled)
    ensures Rank(E.Apply(e, Turn(e, cancelled))) < Rank(e)
  {
  }

  /** Run r is under way in a process that has got from s to t while run a's streams stay open. */
  ghost predicate Draining(s: State, t: State, a: RunId, r: RunId) {
    Ahead(s, t, a) && r != a && r in t.runs && t.runs[r].waiter == Waiting
  }

  function TurnOf(t: State, r: RunId, server: ServerId): Step
    requires r in t.runs && server in t.runs[r].execs
  {
    Act(r, server, Turn(t.runs[r].execs[server], t.runs[r].cancelled))
  }

  lemma TurnEnabled(t: State, r: RunId, server: ServerId)
    requires Inv(t) && t.up && r in t.runs && server in t.runs[r].execs && t.runs[r].execs[server].pc != E.Exited
    ensures |t.runs[r].execs[server].result.output| <= BatchOutput.MAX_OUTPUT
    ensures Enabled(t, TurnOf(t, r, server))
    ensures Rank(E.Apply(t.runs[r].execs[server], TurnOf(t, r, server).action)) < Rank(t.runs[r].execs[server])
  {
    assert RunInv(r, t.runs[r], t.db, t.targets, t.current, t.hub.log);
    var e := t.runs[r].execs[server];
    assert E.ExecInv(e, Proj(t.hub.log, r, server));
    TurnLowers(e, t.runs[r].cancelled);
  }

  /** Only that execution of the run moves. */
  ghost predicate OneMoved(rs: RunState, rs': RunState, server: ServerId) {
    && rs'.waiter == rs.waiter && rs'.execs.Keys == rs.execs.Keys
    && forall other :: other in rs.execs && other != server ==> rs'.execs[other] == rs.execs[other]
  }

  lemma TurnMoves(t: State, r: RunId, server: ServerId)
    requires r in t.runs && server in t.runs[r].execs && Enabled(t, TurnOf(t, r, server))
    ensures var u := Apply(t, TurnOf(t, r, server));
      && r in u.runs && OneMoved(t.runs[r], u.runs[r], server)
      && u.runs[r].execs[server] == E.Apply(t.runs[r].execs[server], TurnOf(t, r, server).action)
  {
  }

  lemma Turns(s: State, t: State, a: RunId, r: RunId, server: ServerId) returns (u: State)
    requires Draining(s, t, a, r) && server in t.runs[r].execs && t.runs[r].execs[server].pc != E.Exited
    ensures Draining(s, u, a, r) && Enabled(t, TurnOf(t, r, server)) && u == Apply(t, TurnOf(t, r, server))
    ensures OneMoved(t.runs[r], u.runs[r], server)
    ensures u.runs[r].execs[server] == E.Apply(t.runs[r].execs[server], TurnOf(t, r, server).action)
    ensures Rank(u.runs[r].execs[server]) < Rank(t.runs[r].execs[server])
  {
    ReachableInv(t);
    TurnEnabled(t, r, server);
    TurnMoves(t, r, server);
    u := AheadStep(s, t, a, TurnOf(t, r, server));
  }

  lemma {:induction false} Finishes(s: State, t: State, a: RunId, r: RunId, server: ServerId) returns (u: State)
    requires Draining(s, t, a, r) && server in t.runs[r].execs
    ensures Draining(s, u, a, r) && OneMoved(t.runs[r], u.runs[r], server)
    ensures u.runs[r].execs[server].pc == E.Exited
    decreases Rank(t.runs[r].execs[server])
  {
    u := t;
    if t.runs[r].execs[server].pc != E.Exited {
      u := Turns(s, t, a, r, server);
      u := Finishes(s, u, a, r, server);
    }
  }

  lemma {:induction false} FinishesAll(s: State, t: State, a: RunId, r: RunId, rest: set<ServerId>) returns (u: State)
    requires Draining(s, t, a, r)
    requires forall server :: server in t.runs[r].execs && server !in rest ==> t.runs[r].execs[server].pc == E.Exited
    ensures Draining(s, u, a, r) && AllExited(u.runs[r])
    decreases rest
  {
    u := t;
    if server :| server in rest {
      if server in t.runs[r].execs {
        u := Finishes(s, t, a, r, server);
      }
      u := FinishesAll(s, u, a, r, rest - {server});
    }
  }

  /** So, unless the process is stuck, the run it has marked running can be marked done. */
  lemma Clears(s: State, a: RunId) returns (t: State)
    requires Ahead(s, s, a) && forall id :: !Stuck(s, id)
    ensures Ahead(s, t, a) && NoneRunning(t)
  {
    StoredRuns(s);
    t := s;
    if !NoneRunning(s) {
      var r := s.db.runs[0].id;
      t := PublishesStored(s, s, a, r);
      t := FinishesAll(s, t, a, r, t.runs[r].execs.Keys);
      t := MarksDone(s, t, a, r);
    }
  }

  lemma MarksDone(s: State, t: State, a: RunId, r: RunId) returns (u: State)
    requires Draining(s, t, a, r) && AllExited(t.runs[r])
    ensures Ahead(s, u, a) && NoneRunning(u)
  {
    RunIsSound(t, r);
    u := AheadStep(s, t, a, MarkDone(r, true));
  }

  // ---- Then the next run announces itself to whoever listens ----

  /** Run b is about to announce that it is running on the server. */
  ghost predicate Announcing(s: State, t: State, a: RunId, b: RunId, server: ServerId) {
    && Draining(s, t, a, b) && server in t.runs[b].execs
    && t.runs[b].execs[server].pc == E.AnnounceStart
    && StatusOf(t.runs[b].execs[server].result) == E.RunningEvent(server)
  }

  lemma NextAnnounces(s: State, a: RunId, server: ServerId) returns (t: State, b: RunId)
    requires Reachable(s) && s.up && Ended(s, a) && forall id :: !Stuck(s, id)
    ensures Announcing(s, t, a, b, server)
  {
    AheadStart(s, a);
    t := Clears(s, a);
    t, b := DispatchesNext(s, t, a, server);
    UnfinishedWaits(t, b);
    t := Starts(s, t, a, b, server);
  }

  lemma UnfinishedWaits(t: State, b: RunId)
    requires Reachable(t) && Unfinished(t, b)
    ensures t.runs[b].waiter == Waiting
  {
    RunIsSound(t, b);
  }

  lemma Starts(s: State, t: State, a: RunId, b: RunId, server: ServerId) returns (u: State)
    requires Draining(s, t, a, b) && server in t.runs[b].execs
    requires t.runs[b].execs[server] == E.Start(b, server, t.interval)
    ensures Announcing(s, u, a, b, server)
  {
    var t1 := Turns(s, t, a, b, server);
    u := Turns(s, t1, a, b, server);
  }

  /** The channel is open to what is broadcast next. */
  ghost predicate Listening(t: State, c: ChanId, a: RunId) {
    c in t.hub.subs && c in t.hub.chans && t.hub.chans[c].run == a
  }

  /** The channel of a has got, after everything it had in s, an event of another run. */
  ghost predicate GetsForeign(s: State, t: State, c: ChanId, ev: Event)
    requires c in s.hub.chans
  {
    && c in t.hub.chans
    && exists k :: |Received(s.hub.chans[c])| <= k < |Received(t.hub.chans[c])|
         && Received(t.hub.chans[c])[k].run != t.hub.chans[c].run && Received(t.hub.chans[c])[k].event == ev
  }

  lemma RoomMade(s: State, t: State, a: RunId, b: RunId, server: ServerId, c: ChanId) returns (u: State)
    requires Announcing(s, t, a, b, server) && Listening(t, c, a)
    ensures Announcing(s, u, a, b, server) && Listening(u, c, a) && |u.hub.chans[c].queue| < BUFFER
  {
    ReachableInv(t);
    u := t;
    if |t.hub.chans[c].queue| >= BUFFER {
      u := AheadStep(s, t, a, Receive(c));
    }
  }

  /** What an attached channel with room makes of one broadcast. */
  lemma Heard(h: Hub, c: ChanId, id: RunId, ev: Event)
    requires c in h.subs && c in h.chans && |h.chans[c].queue| < BUFFER
    ensures var h' := BroadcastAll(h, id, [ev]);
      c in h'.chans && Received(h'.chans[c]) == Received(h.chans[c]) + [Tagged(id, ev)] && h'.chans[c].run == h.chans[c].run
  {
    assert [ev][..0] == [];
    assert BroadcastAll(h, id, [ev]) == Broadcast(h, Tagged(id, ev));
  }

  lemma TurnHub(t: State, r: RunId, server: ServerId)
    requires r in t.runs && server in t.runs[r].execs && t.runs[r].execs[server].pc == E.AnnounceStart
    requires Enabled(t, TurnOf(t, r, server))
    ensures Apply(t, TurnOf(t, r, server)).hub == BroadcastAll(t.hub, r, [StatusOf(t.runs[r].execs[server].result)])
  {
  }

  lemma Announces(s: State, t: State, a: RunId, b: RunId, server: ServerId, c: ChanId) returns (u: State)
    requires Announcing(s, t, a, b, server) && Listening(t, c, a) && |t.hub.chans[c].queue| < BUFFER
    ensures Ahead(s, u, a) && Listening(u, c, a)
    ensures Received(u.hub.chans[c]) == Received(t.hub.chans[c]) + [Tagged(b, E.RunningEvent(server))]
  {
    Heard(t.hub, c, b, E.RunningEvent(server));
    u := Turns(s, t, a, b, server);
    TurnHub(t, b, server);
  }

  // ---- In a stuck process nothing is broadcast any more ----

  /** The process is gone, or the channel has got nothing since s. */
  ghost predicate Silent(s: State, t: State, c: ChanId)
    requires c in s.hub.chans
  {
    if c in t.hub.chans then Received(t.hub.chans[c]) == Received(s.hub.chans[c]) else !t.up
  }

  lemma QuietSilent(s: State, t: State, c: ChanId, step: Step)
    requires c in s.hub.chans && Silent(s, t, c) && Enabled(t, step) && !step.Restart? && !step.Act? && !step.Receive?
    ensures Silent(s, Apply(t, step), c)
  {
  }

  lemma ReceiveSilent(s: State, t: State, c: ChanId, reader: ChanId)
    requires c in s.hub.chans && Silent(s, t, c) && Enabled(t, Receive(reader))
    ensures Silent(s, Apply(t, Receive(reader)), c)
  {
    var ch := t.hub.chans[reader];
    assert ch.taken + [ch.queue[0]] + ch.queue[1..] == ch.taken + ch.queue;
  }

  lemma StuckSilent(s: State, t: State, c: ChanId, step: Step, id: RunId)
    requires c in s.hub.chans && Silent(s, t, c) && Inv(t) && Stuck(t, id) && Enabled(t, step) && !step.Restart?
    ensures Silent(s, Apply(t, step), c)
  {
    if step.Act? {
      ActorWaits(t, step.id, step.server, step.action);
      StuckHasNoWaiter(t, id, step.id);
    } else if step.Receive? {
      ReceiveSilent(s, t, c, step.chan);
    } else {
      QuietSilent(s, t, c, step);
    }
  }

  lemma StaysStuck(s: State, steps: seq<Step>, id: RunId)
    requires Inv(s) && Stuck(s, id) && Run(s, steps).Some?
    requires forall i :: 0 <= i < |steps| ==> !steps[i].Restart?
    ensures Inv(Run(s, steps).value) && Stuck(Run(s, steps).value, id)
  {
    StuckUntilRestart(s, steps, id);
  }

  lemma {:induction false} StuckStaysSilent(s: State, steps: seq<Step>, c: ChanId, id: RunId)
    requires Inv(s) && Stuck(s, id) && c in s.hub.chans && Run(s, steps).Some?
    requires forall i :: 0 <= i < |steps| ==> !steps[i].Restart?
    ensures Silent(s, Run(s, steps).value, c)
    decreases |steps|
  {
    if steps != [] {
      var n := |steps| - 1;
      StuckStaysSilent(s, steps[..n], c, id);
      StaysStuck(s, steps[..n], id);
      StuckSilent(s, Run(s, steps[..n]).value, c, steps[n], id);
    }
  }

  // ---- The exact condition ----

  lemma GotForeign(s: State, t: State, u: State, c: ChanId, a: RunId, b: RunId, ev: Event)
    requires Listening(s, c, a) && Listening(u, c, a) && b != a && c in t.hub.chans
    requires |Received(s.hub.chans[c])| <= |Received(t.hub.chans[c])|
    requires Received(u.hub.chans[c]) == Received(t.hub.chans[c]) + [Tagged(b, ev)]
    ensures GetsForeign(s, u, c, ev)
  {
    assert Received(u.hub.chans[c])[|Received(t.hub.chans[c])|] == Tagged(b, ev);
  }

  /** Another run's event is the last thing the channel has got. */
  lemma Intrudes(s: State, a: RunId, c: ChanId, server: ServerId) returns (t: State, before: seq<Tagged>, b: RunId)
    requires Reachable(s) && s.up && Ended(s, a) && Listening(s, c, a) && forall id :: !Stuck(s, id)
    ensures Ahead(s, t, a) && Listening(t, c, a) && GetsForeign(s, t, c, E.RunningEvent(server))
    ensures Received(t.hub.chans[c]) == before + [Tagged(b, E.RunningEvent(server))] && b != a
  {
    var t1;
    t1, b := NextAnnounces(s, a, server);
    t1 := RoomMade(s, t1, a, b, server, c);
    before := Received(t1.hub.chans[c]);
    t := Announces(s, t1, a, b, server, c);
    GotForeign(s, t1, t, c, a, b, E.RunningEvent(server));
  }

  /**
   * Until its run is marked done a channel carries that run's events only (BatchStreams.StreamIsOwn).
   * From then on, as long as it is attached, a status of any server in another run can still arrive
   * on it, if and only if the process is not stuck.
   */
  lemma ForeignIff(s: State, a: RunId, c: ChanId, server: ServerId)
    requires Reachable(s) && s.up && Ended(s, a) && Listening(s, c, a)
    ensures (exists t :: Continues(s, t) && GetsForeign(s, t, c, E.RunningEvent(server))) <==> forall id :: !Stuck(s, id)
  {
    ReachableInv(s);
    if id :| Stuck(s, id) {
      forall t | Continues(s, t) ensures !GetsForeign(s, t, c, E.RunningEvent(server)) {
        var steps: seq<Step> :| Run(s, steps) == Some(t) && forall i :: 0 <= i < |steps| ==> !steps[i].Restart?;
        StuckStaysSilent(s, steps, c, id);
      }
    } else {
      var t, before, b := Intrudes(s, a, c, server);
    }
  }

  // ---- What the browser makes of it ----

  lemma {:induction false} FoldKeepsServers(rows: seq<ClientResult>, evs: seq<Event>)
    ensures |Fold(rows, evs)| == |rows|
    ensures forall i :: 0 <= i < |rows| ==> Fold(rows, evs)[i].server == rows[i].server
    decreases |evs|
  {
    if evs != [] {
      FoldKeepsServers(rows, evs[..|evs| - 1]);
    }
  }

  lemma RunningAgain(rows: seq<ClientResult>, before: seq<Tagged>, b: RunId, i: nat)
    requires i < |rows|
    ensures var view := Fold(rows, Events(before + [Tagged(b, E.RunningEvent(rows[i].server))]));
      |view| == |rows| && view[i].status == Running
  {
    var ev := E.RunningEvent(rows[i].server);
    assert Events(before + [Tagged(b, ev)]) == Events(before) + [ev];
    FoldKeepsServers(rows, Events(before));
    FoldSnoc(rows, rows[i], Events(before), ev);
  }

  lemma EndedIsTerminal(t: State, a: RunId, i: nat)
    requires Reachable(t) && Ended(t, a) && i < |t.runs[a].servers|
    ensures t.runs[a].servers[i] in t.runs[a].execs
    ensures var e := t.runs[a].execs[t.runs[a].servers[i]]; e.pc == E.Exited && Terminal(e.result.status)
  {
    RunIsSound(t, a);
    var server := t.runs[a].servers[i];
    BatchRecords.FinalIsTerminal(t.runs[a].execs[server], Proj(t.hub.log, a, server));
  }

  /**
   * So whatever a channel of a run marked done has delivered, unless the process is stuck a browser on
   * it can come to show any server of that run as running, although its result is final.
   */
  lemma ShownRunningAgain(s: State, a: RunId, c: ChanId, i: nat) returns (t: State)
    requires Reachable(s) && s.up && Ended(s, a) && Listening(s, c, a) && forall id :: !Stuck(s, id)
    requires i < |s.runs[a].servers|
    ensures Ahead(s, t, a) && Listening(t, c, a) && ShowsRunning(t, a, c, i)
  {
    var rows := FromDispatch(NewResults(a, s.runs[a].servers));
    var before, b;
    t, before, b := Intrudes(s, a, c, s.runs[a].servers[i]);
    RunningAgain(rows, before, b, i);
    EndedIsTerminal(t, a, i);
  }

  /** The browser folds server i of run a to running; its execution has ended with a final result. */
  ghost predicate ShowsRunning(t: State, a: RunId, c: ChanId, i: nat) {
    && a in t.runs && c in t.hub.chans && i < |t.runs[a].servers| && t.runs[a].servers[i] in t.runs[a].execs
    && (var view := Fold(FromDispatch(NewResults(a, t.runs[a].servers)), Events(Received(t.hub.chans[c])));
        i < |view| && view[i].status == Running)
    && var e := t.runs[a].execs[t.runs[a].servers[i]];
       e.pc == E.Exited && Terminal(e.result.status)
  }

  // ---- Such a channel is reached: the browser attaches after the only server has failed ----

  lemma JoinsFirst(s: State, e: E.Exec) returns (t: State, c: ChanId)
    requires Executing(s, e)
    ensures Executing(t, e) && Listening(t, c, 0) && !t.hub.chans[c].late
  {
    RunIsSound(s, 0);
    c := Unused(s.hub.chans.Keys + s.subscribing.Keys);
    var u := Apply(s, SubscribeCheck(c, 0));
    ReachStep(s, SubscribeCheck(c, 0));
    t := Apply(u, SubscribeAttach(c));
    ReachStep(u, SubscribeAttach(c));
  }

  lemma FirstEnds(s: State, e: E.Exec) returns (t: State)
    requires Executing(s, e) && e.pc == E.Exited
    ensures Reachable(t) && t.up && t.hub == s.hub && Lingers(t, 0) && t.runs[0].servers == [7]
    ensures forall id :: !Stuck(t, id)
  {
    RunIsSound(s, 0);
    OnlySeven(s.runs[0]);
    t := Apply(s, MarkDone(0, true));
    ReachStep(s, MarkDone(0, true));
  }

  lemma OnlySeven(rs: RunState)
    requires SessionsInv(rs) && rs.execs.Keys == {7}
    ensures rs.servers == [7]
  {
    assert 7 in rs.execs.Keys;
    assert forall server :: server in rs.servers ==> server in rs.execs.Keys;
    OnlyOne(rs.servers, 7);
  }

  lemma OnlyOne<T>(xs: seq<T>, x: T)
    requires Distinct(xs) && x in xs && forall y :: y in xs ==> y == x
    ensures xs == [x]
  {
    assert xs[0] in xs && xs[|xs| - 1] in xs;
  }

  /** So it happens, to a channel that was attached before the completion. */
  lemma ForeignHappens()
    ensures exists s: State, c: ChanId, t: State :: Misled(s, c, t)
  {
    var s0, e := FirstFails(true);
    var s1, c := JoinsFirst(s0, e);
    var s := FirstEnds(s1, e);
    var t := ShownRunningAgain(s, 0, c, 0);
    assert Misled(s, c, t);
  }

  ghost predicate Misled(s: State, c: ChanId, t: State) {
    && Reachable(s) && Lingers(s, 0) && Listening(s, c, 0) && !s.hub.chans[c].late
    && Continues(s, t) && Listening(t, c, 0) && ShowsRunning(t, 0, c, 0)
  }
}
