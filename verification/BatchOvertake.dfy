/**
 * A completion waiter closes every attached stream, not only those of its own run. A run dispatched
 * between the waiter's store statement and its closing sweep loses its streams while it is running.
 */
module BatchOvertake {
  import opened Prelude
  import opened BatchTypes
  import opened BatchStore
  import opened BatchFanout
  import opened BatchProtocol
  import opened BatchInvariant
  import opened BatchTheorems
  import E = BatchExecution

  /** The closing of run id's streams would end the stream of a run that is still running. */
  ghost predicate EndsRunningStream(s: State, id: RunId) {
    exists c :: c in s.hub.subs && c in s.hub.chans && Unfinished(s, s.hub.chans[c].run)
  }

  lemma ReachStep(s: State, step: Step)
    requires Reachable(s) && Enabled(s, step)
    ensures Reachable(Apply(s, step))
  {
    var interval: int, steps: seq<Step> :| Run(Init(interval), steps) == Some(s);
    assert (steps + [step])[..|steps|] == steps;
    assert Run(Init(interval), steps + [step]) == Some(Apply(s, step));
  }

  ghost predicate HasSubscriber(s: State, id: RunId) {
    exists c :: c in s.hub.subs && c in s.hub.chans && s.hub.chans[c].run == id
  }

  /** A closing sweep hits a running stream exactly when another run is current, unfinished and subscribed to. */
  lemma ClosesRunningStreamIff(s: State, id: RunId)
    requires Reachable(s) && Enabled(s, CloseSubscribers(id))
    ensures EndsRunningStream(s, id) <==>
      s.current.Some? && s.current.value != id && Unfinished(s, s.current.value) && HasSubscriber(s, s.current.value)
  {
    forall c | c in s.hub.subs && c in s.hub.chans && Unfinished(s, s.hub.chans[c].run)
      ensures s.current == Some(s.hub.chans[c].run) && s.hub.chans[c].run != id
    {
      Serialized(s, s.hub.chans[c].run);
      RunIsSound(s, id);
    }
  }

  // ---- When a waiter can still do it ----

  /** The process gets from s to t without a restart. */
  ghost predicate Continues(s: State, t: State) {
    exists steps: seq<Step> :: Run(s, steps) == Some(t) && forall i :: 0 <= i < |steps| ==> !steps[i].Restart?
  }

  /** Run a is marked done, but its waiter has not closed the streams yet. */
  predicate Lingers(s: State, a: RunId) {
    a in s.runs && (s.runs[a].waiter == Marked || s.runs[a].waiter == Finishing)
  }

  /** Who was attached still is, and nothing has been taken back. */
  ghost predicate StillAttached(h: Hub, h': Hub) {
    && |h.log| <= |h'.log|
    && forall c :: c in h.subs && c in h.chans ==>
      && c in h'.subs && c in h'.chans && h'.chans[c].run == h.chans[c].run
      && |Received(h.chans[c])| <= |Received(h'.chans[c])|
  }

  predicate Ended(s: State, a: RunId) {
    a in s.runs && s.runs[a].waiter != Waiting
  }

  predicate StillEnded(s: State, t: State, a: RunId) {
    a in s.runs && Ended(t, a) && t.runs[a].servers == s.runs[a].servers && (Lingers(s, a) ==> Lingers(t, a))
  }

  ghost predicate Ahead(s: State, t: State, a: RunId) {
    Reachable(t) && Continues(s, t) && t.up && StillEnded(s, t, a) && StillAttached(s.hub, t.hub)
  }

  /** Steps that leave the streams and waiter of run a alone. */
  predicate LeavesStreams(step: Step, a: RunId) {
    !step.Restart? && !step.Crash? && !step.CloseSubscribers? && !step.Unsubscribe? && step != Publish(a)
  }

  lemma AheadStart(s: State, a: RunId)
    requires Reachable(s) && s.up && Ended(s, a)
    ensures Ahead(s, s, a)
  {
    assert Run(s, []) == Some(s);
  }

  lemma AheadStep(s: State, t: State, a: RunId, step: Step) returns (u: State)
    requires Ahead(s, t, a) && Enabled(t, step) && LeavesStreams(step, a)
    ensures u == Apply(t, step) && Ahead(s, u, a)
  {
    u := Apply(t, step);
    ReachStep(t, step);
    StepStillEnded(s, t, a, step);
    StepStillAttached(t, step, a);
    var steps: seq<Step> :| Run(s, steps) == Some(t) && forall i :: 0 <= i < |steps| ==> !steps[i].Restart?;
    assert (steps + [step])[..|steps|] == steps;
    assert Run(s, steps + [step]) == Some(u);
  }

  lemma StepStillEnded(s: State, t: State, a: RunId, step: Step)
    requires t.up && StillEnded(s, t, a) && Enabled(t, step) && LeavesStreams(step, a)
    ensures Apply(t, step).up && StillEnded(s, Apply(t, step), a)
  {
  }

  lemma StepStillAttached(t: State, step: Step, a: RunId)
    requires Enabled(t, step) && LeavesStreams(step, a)
    ensures StillAttached(t.hub, Apply(t, step).hub)
  {
    if step.Act? {
      ActStillAttached(t.hub, step.id, t.runs[step.id].execs[step.server], step.action);
    }
  }

  lemma ActStillAttached(h: Hub, id: RunId, e: E.Exec, a: E.Action)
    requires E.Enabled(e, a)
    ensures StillAttached(h, BroadcastAll(h, id, E.EventsOf(e, a)))
  {
    var evs := E.EventsOf(e, a);
    if evs != [] {
      assert evs[..0] == [];
      assert BroadcastAll(h, id, evs) == Broadcast(h, Tagged(id, evs[0]));
    }
  }

  /** The current run is b, it is unfinished, and it is not a. */
  ghost predicate Running(t: State, a: RunId, b: RunId) {
    t.current == Some(b) && b != a && Unfinished(t, b)
  }

  /** The run marked running is published, if it is not yet. */
  lemma PublishesStored(s: State, t: State, a: RunId, r: RunId) returns (u: State)
    requires Ahead(s, t, a) && IsRow(t.db, r, RunRunning) && !Stuck(t, r)
    ensures Ahead(s, u, a) && IsRow(u.db, r, RunRunning) && r in u.runs && u.runs[r].waiter == Waiting && r != a
  {
    ReachableInv(t);
    u := t;
    if r in t.replaced {
      u := AheadStep(s, t, a, Publish(r));
    }
  }

  /** Either that run is unfinished, or it is marked done. */
  lemma FinishesStored(s: State, t: State, a: RunId, r: RunId) returns (u: State)
    requires Ahead(s, t, a) && IsRow(t.db, r, RunRunning) && !Stuck(t, r)
    ensures Ahead(s, u, a) && (Running(u, a, r) || NoneRunning(u))
  {
    u := PublishesStored(s, t, a, r);
    RunIsSound(u, r);
    if AllExited(u.runs[r]) {
      u := AheadStep(s, u, a, MarkDone(r, true));
    }
  }

  /** With no run marked running, the done flag of the current run gets set. */
  lemma FlagsCurrent(s: State, t: State, a: RunId) returns (u: State)
    requires Ahead(s, t, a) && NoneRunning(t)
    ensures Ahead(s, u, a) && u.db == t.db && u.targets == t.targets
    ensures u.current.None? || (u.current.value in u.runs && Done(u.runs[u.current.value]))
  {
    u := t;
    if t.current.Some? {
      CurrentEnded(t);
      if t.runs[t.current.value].waiter == Marked {
        u := AheadStep(s, t, a, SetDoneFlag(t.current.value));
      }
    }
  }

  lemma CurrentEnded(t: State)
    requires Reachable(t) && NoneRunning(t) && t.current.Some?
    ensures Ended(t, t.current.value)
  {
    ReachableInv(t);
    RunIsSound(t, t.current.value);
  }

  predicate NoneRunning(t: State) {
    forall i :: 0 <= i < |t.db.runs| ==> t.db.runs[i].status == RunDone
  }

  lemma NewId(t: State, a: RunId) returns (b: RunId)
    requires Reachable(t) && a in t.runs
    ensures b !in t.targets && b != a
  {
    ReachableInv(t);
    assert RunInv(a, t.runs[a], t.db, t.targets, t.current, t.hub.log);
    b := Unused(t.targets.Keys);
  }

  /** Then an ordinary dispatch starts a new run. */
  lemma DispatchesNext(s: State, t: State, a: RunId, server: ServerId) returns (u: State, b: RunId)
    requires Ahead(s, t, a) && NoneRunning(t)
    ensures Ahead(s, u, a) && Running(u, a, b) && server in u.runs[b].execs
    ensures u.runs[b].execs[server] == E.Start(b, server, u.interval)
  {
    var t1 := FlagsCurrent(s, t, a);
    b := NewId(t1, a);
    assert Dedupe([server]) == [server] by { assert [server][..0] == []; }
    var t2 := AheadStep(s, t1, a, Guard(b, "", [server], 0));
    GuardedReplaces(t2, b, server);
    var t3 := AheadStep(s, t2, a, ReplaceRun(b, true));
    PublishedStarts(t3, a, b, server);
    u := AheadStep(s, t3, a, Publish(b));
  }

  lemma GuardedReplaces(t: State, b: RunId, server: ServerId)
    requires t.up && NoneRunning(t) && b in t.guarded && t.guarded[b].servers == [server]
    ensures var u := Apply(t, ReplaceRun(b, true)); u.up && b in u.replaced && u.replaced[b].servers == [server]
  {
    LatestIsNewest(t.db.runs);
  }

  lemma PublishedStarts(t: State, a: RunId, b: RunId, server: ServerId)
    requires t.up && b in t.replaced && t.replaced[b].servers == [server] && b != a
    ensures var u := Apply(t, Publish(b));
      Running(u, a, b) && server in u.runs[b].execs && u.runs[b].execs[server] == E.Start(b, server, u.interval)
  {
    var u := Apply(t, Publish(b));
    assert u.runs[b].execs[server] == E.Start(b, server, t.interval);
  }

  /** A browser watches the running run, and the waiter gets to its closing sweep. */
  lemma JoinsAndFlags(s: State, t: State, a: RunId, b: RunId) returns (u: State)
    requires Ahead(s, t, a) && Lingers(s, a) && Running(t, a, b)
    ensures Ahead(s, u, a) && Enabled(u, CloseSubscribers(a)) && EndsRunningStream(u, a)
  {
    u := Joins(s, t, a, b);
    if u.runs[a].waiter == Marked {
      u := AheadStep(s, u, a, SetDoneFlag(a));
    }
    assert u.runs[b] == t.runs[b];
  }

  lemma Joins(s: State, t: State, a: RunId, b: RunId) returns (u: State)
    requires Ahead(s, t, a) && t.current == Some(b) && b in t.runs
    ensures Ahead(s, u, a) && u.runs == t.runs && HasSubscriber(u, b)
  {
    var c := Unused(t.hub.chans.Keys + t.subscribing.Keys);
    var t1 := AheadStep(s, t, a, SubscribeCheck(c, b));
    u := AheadStep(s, t1, a, SubscribeAttach(c));
    assert c in u.hub.subs && u.hub.chans[c].run == b;
  }

  lemma EndsEarly(s: State, a: RunId) returns (u: State)
    requires Reachable(s) && s.up && Lingers(s, a) && forall id :: !Stuck(s, id)
    ensures Ahead(s, u, a) && Enabled(u, CloseSubscribers(a)) && EndsRunningStream(u, a)
  {
    AheadStart(s, a);
    var t, b := NextRun(s, a);
    u := JoinsAndFlags(s, t, a, b);
  }

  /** Whatever the store holds, a next run gets under way. */
  lemma NextRun(s: State, a: RunId) returns (t: State, b: RunId)
    requires Ahead(s, s, a) && forall id :: !Stuck(s, id)
    ensures Ahead(s, t, a) && Running(t, a, b)
  {
    StoredRuns(s);
    if NoneRunning(s) {
      t, b := DispatchesNext(s, s, a, 0);
    } else {
      t, b := NextAfterStored(s, a, s.db.runs[0].id);
    }
  }

  lemma NextAfterStored(s: State, a: RunId, r: RunId) returns (t: State, b: RunId)
    requires Ahead(s, s, a) && IsRow(s.db, r, RunRunning) && !Stuck(s, r)
    ensures Ahead(s, t, a) && Running(t, a, b)
  {
    var t1 := FinishesStored(s, s, a, r);
    t, b := NextFrom(s, t1, a, r);
  }

  lemma NextFrom(s: State, t: State, a: RunId, r: RunId) returns (u: State, b: RunId)
    requires Ahead(s, t, a) && (Running(t, a, r) || NoneRunning(t))
    ensures Ahead(s, u, a) && Running(u, a, b)
  {
    u, b := t, r;
    if !Running(t, a, r) {
      u, b := DispatchesNext(s, t, a, 0);
    }
  }

  lemma StoredRuns(s: State)
    requires Reachable(s)
    ensures NoneRunning(s) || (s.db.runs != [] && IsRow(s.db, s.db.runs[0].id, RunRunning))
  {
    ReachableInv(s);
  }

  /** In a stuck process no run is unfinished, nor will be. */
  lemma StuckHasNoStream(s: State, id: RunId, t: State, a: RunId)
    requires Inv(s) && Stuck(s, id) && Continues(s, t)
    ensures !EndsRunningStream(t, a)
  {
    var steps: seq<Step> :| Run(s, steps) == Some(t) && forall i :: 0 <= i < |steps| ==> !steps[i].Restart?;
    StuckUntilRestart(s, steps, id);
    StuckIsFinished(t, id);
  }

  lemma StuckIsFinished(t: State, id: RunId)
    requires Inv(t) && Stuck(t, id)
    ensures forall other: RunId :: !Unfinished(t, other)
  {
    forall other: RunId ensures !Unfinished(t, other) {
      if other in t.runs {
        StuckHasNoWaiter(t, id, other);
        assert RunInv(other, t.runs[other], t.db, t.targets, t.current, t.hub.log);
      }
    }
  }

  /**
   * A waiter between its store statement and its closing sweep can still end the stream of a running
   * run, if and only if the process is not stuck: whenever a next run can start at all, this can happen.
   */
  lemma EndsEarlyIff(s: State, a: RunId)
    requires Reachable(s) && s.up && Lingers(s, a)
    ensures (exists t :: Continues(s, t) && Enabled(t, CloseSubscribers(a)) && EndsRunningStream(t, a))
       <==> forall id :: !Stuck(s, id)
  {
    ReachableInv(s);
    if id :| Stuck(s, id) {
      forall t | Continues(s, t) ensures !EndsRunningStream(t, a) {
        StuckHasNoStream(s, id, t, a);
      }
    } else {
      var t := EndsEarly(s, a);
    }
  }

  // ---- Such a state is reached: a dispatch fails on its only server ----

  ghost predicate Executing(s: State, e: E.Exec) {
    && Reachable(s) && s.up
    && 0 in s.runs && s.runs[0].execs.Keys == {7} && s.runs[0].execs[7] == e
    && !s.runs[0].cancelled && s.runs[0].waiter == Waiting
  }

  lemma OneDispatch() returns (s: State)
    ensures Executing(s, E.Start(0, 7, 1))
  {
    var s0 := Init(1);
    assert Run(s0, []) == Some(s0);
    assert Dedupe([7]) == [7] by { assert [7][..0] == []; }
    var s1 := Apply(s0, Guard(0, "", [7], 0));
    ReachStep(s0, Guard(0, "", [7], 0));
    s := OneReplaced(s1);
  }

  lemma OneReplaced(s: State) returns (t: State)
    requires Reachable(s) && s.up && s.db.runs == [] && s.interval == 1 && 0 in s.guarded && s.guarded[0].servers == [7]
    ensures Executing(t, E.Start(0, 7, 1))
  {
    var s1 := Apply(s, ReplaceRun(0, true));
    ReachStep(s, ReplaceRun(0, true));
    t := Apply(s1, Publish(0));
    ReachStep(s1, Publish(0));
    assert t.runs[0].execs[7] == E.Start(0, 7, 1);
  }

  lemma Work(s: State, e: E.Exec, a: E.Action) returns (t: State, e': E.Exec)
    requires Executing(s, e) && E.Enabled(e, a) && SeesContext(a, false)
    ensures |e.result.output| <= 65536 && e' == E.Apply(e, a) && Executing(t, e')
  {
    WorkEnabled(s, e, a);
    e' := E.Apply(e, a);
    WorkStays(s, e, a);
    t := Apply(s, Act(0, 7, a));
    ReachStep(s, Act(0, 7, a));
  }

  lemma WorkEnabled(s: State, e: E.Exec, a: E.Action)
    requires Executing(s, e) && E.Enabled(e, a) && SeesContext(a, false)
    ensures |e.result.output| <= 65536 && CanAct(s.runs[0], 7, a) && Enabled(s, Act(0, 7, a))
  {
    RunIsSound(s, 0);
    assert E.ExecInv(e, Proj(s.hub.log, 0, 7));
  }

  lemma WorkStays(s: State, e: E.Exec, a: E.Action)
    requires Executing(s, e) && Enabled(s, Act(0, 7, a))
    ensures var t := Apply(s, Act(0, 7, a));
      && t.up && 0 in t.runs && t.runs[0].execs.Keys == {7} && t.runs[0].execs[7] == E.Apply(e, a)
      && !t.runs[0].cancelled && t.runs[0].waiter == Waiting
  {
    ActLog(s.hub, 0, e, a);
  }

  lemma FirstRefused() returns (s: State, e: E.Exec)
    ensures Executing(s, e) && e.pc == E.Fail("unreachable") && e.session == E.Unopened
  {
    var s0 := OneDispatch();
    var s1, e1 := Work(s0, E.Start(0, 7, 1), E.Begin(0));
    var s2, e2 := Work(s1, e1, E.Save(true));
    var s3, e3 := Work(s2, e2, E.Emit);
    s, e := Work(s3, e3, E.Script(Some("unreachable")));
  }

  lemma FirstFailing() returns (s: State, e: E.Exec)
    ensures Executing(s, e) && e.pc == E.PersistFailure && e.session == E.Unopened
  {
    var s4, e4 := FirstRefused();
    s, e := Work(s4, e4, E.Finalize(false, 0));
  }

  /** The first dispatch fails on its only server; its final persist succeeds or not. */
  lemma FirstFails(saved: bool) returns (s: State, e: E.Exec)
    ensures Executing(s, e) && e.pc == E.Exited && e.saved == saved
  {
    var s5, e5 := FirstFailing();
    var s6, e6 := Work(s5, e5, E.Save(saved));
    s, e := Work(s6, e6, E.Emit);
  }

  /** So the code does end streams of running runs. */
  lemma StreamsCanEndEarly()
    ensures exists s: State, id: RunId :: Reachable(s) && Enabled(s, CloseSubscribers(id)) && EndsRunningStream(s, id)
  {
    var t, e := FirstFails(true);
    RunIsSound(t, 0);
    FailedMarkSticks(t, 0, true);
    var s := Apply(t, MarkDone(0, true));
    ReachStep(t, MarkDone(0, true));
    var u := EndsEarly(s, 0);
  }
}
