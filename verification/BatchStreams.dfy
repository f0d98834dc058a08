/** What a subscriber's channel delivers, and what a browser makes of it that sees nothing else. */
module BatchStreams {
  import opened Prelude
  import opened BatchTypes
  import opened BatchFanout
  import opened BatchProtocol
  import opened BatchInvariant
  import opened BatchTheorems
  import opened BatchClient
  import opened BatchOutput
  import E = BatchExecution

  /** Everything broadcast since the channel was attached is about its own run. */
  ghost predicate OwnSince(log: seq<Tagged>, c: Chan) {
    forall i :: c.joined <= i < |log| ==> log[i].run == c.run
  }

  /** That is so for every channel of a run that has unfinished executions or is yet to be marked done. */
  ghost predicate OwnStreams(chans: map<ChanId, Chan>, log: seq<Tagged>, runs: map<RunId, RunState>) {
    forall c :: c in chans && chans[c].run in runs && runs[chans[c].run].waiter == Waiting ==> OwnSince(log, chans[c])
  }

  /** An event comes from a waiting run, and there is only one. */
  lemma OneWaits(s: State, id: RunId, other: RunId)
    requires Inv(s) && id in s.runs && other in s.runs && s.runs[id].waiter == s.runs[other].waiter == Waiting
    ensures id == other
  {
    assert RunInv(id, s.runs[id], s.db, s.targets, s.current, s.hub.log);
    assert RunInv(other, s.runs[other], s.db, s.targets, s.current, s.hub.log);
  }

  lemma ActorWaits(s: State, id: RunId, server: ServerId, a: E.Action)
    requires Inv(s) && Enabled(s, Act(id, server, a))
    ensures s.runs[id].waiter == Waiting
  {
    assert RunInv(id, s.runs[id], s.db, s.targets, s.current, s.hub.log);
    E.SavesOwnRow(s.runs[id].execs[server], a);
  }

  lemma ActOwnStreams(s: State, id: RunId, server: ServerId, a: E.Action)
    requires Inv(s) && OwnStreams(s.hub.chans, s.hub.log, s.runs) && Enabled(s, Act(id, server, a))
    ensures var t := Apply(s, Act(id, server, a)); OwnStreams(t.hub.chans, t.hub.log, t.runs)
  {
    ActorWaits(s, id, server, a);
    forall other | other in s.runs && s.runs[other].waiter == Waiting ensures other == id {
      OneWaits(s, id, other);
    }
    ActOwnHub(s.hub, id, s.runs[id].execs[server], a, s.runs, Acted(s.runs[id], server, a));
  }

  lemma ActOwnHub(hub: Hub, id: RunId, e: E.Exec, a: E.Action, runs: map<RunId, RunState>, rs: RunState)
    requires OwnStreams(hub.chans, hub.log, runs) && E.Enabled(e, a) && id in runs && runs[id].waiter == rs.waiter == Waiting
    requires forall other :: other in runs && runs[other].waiter == Waiting ==> other == id
    ensures var hub' := BroadcastAll(hub, id, E.EventsOf(e, a)); OwnStreams(hub'.chans, hub'.log, runs[id := rs])
  {
    ActLog(hub, id, e, a);
  }

  lemma PublishOwnStreams(s: State, id: RunId)
    requires Inv(s) && OwnStreams(s.hub.chans, s.hub.log, s.runs) && Enabled(s, Publish(id))
    ensures var t := Apply(s, Publish(id)); OwnStreams(t.hub.chans, t.hub.log, t.runs)
  {
  }

  lemma ReaderOwnStreams(s: State, step: Step)
    requires OwnStreams(s.hub.chans, s.hub.log, s.runs) && Enabled(s, step) && Subscribes(step)
    ensures var t := Apply(s, step); OwnStreams(t.hub.chans, t.hub.log, t.runs)
  {
  }

  lemma OtherOwnStreams(s: State, step: Step)
    requires OwnStreams(s.hub.chans, s.hub.log, s.runs) && Enabled(s, step)
    requires !step.Act? && !step.Publish? && !Subscribes(step)
    ensures var t := Apply(s, step); OwnStreams(t.hub.chans, t.hub.log, t.runs)
  {
  }

  lemma StepKeepsOwnStreams(s: State, step: Step)
    requires Inv(s) && OwnStreams(s.hub.chans, s.hub.log, s.runs) && Enabled(s, step)
    ensures var t := Apply(s, step); OwnStreams(t.hub.chans, t.hub.log, t.runs)
  {
    if step.Act? {
      ActOwnStreams(s, step.id, step.server, step.action);
    } else if step.Publish? {
      PublishOwnStreams(s, step.id);
    } else if Subscribes(step) {
      ReaderOwnStreams(s, step);
    } else {
      OtherOwnStreams(s, step);
    }
  }

  lemma {:induction false} RunKeepsOwnStreams(interval: int, steps: seq<Step>)
    requires Run(Init(interval), steps).Some?
    ensures var t := Run(Init(interval), steps).value; OwnStreams(t.hub.chans, t.hub.log, t.runs)
    decreases |steps|
  {
    if steps != [] {
      var n := |steps| - 1;
      RunKeepsOwnStreams(interval, steps[..n]);
      RunKeepsInv(interval, steps[..n]);
      StepKeepsOwnStreams(Run(Init(interval), steps[..n]).value, steps[n]);
    }
  }

  /**
   * Events carry no run ID, but until its run is marked done everything a channel has been offered is
   * about that run.
   */
  lemma StreamIsOwn(s: State, c: ChanId)
    requires Reachable(s) && c in s.hub.chans
    ensures s.hub.chans[c].run in s.runs
    ensures s.runs[s.hub.chans[c].run].waiter == Waiting ==> OwnSince(s.hub.log, s.hub.chans[c])
  {
    SubscriberStream(s, c);
    var interval: int, steps: seq<Step> :| Run(Init(interval), steps) == Some(s);
    RunKeepsOwnStreams(interval, steps);
  }

  // ---- A browser that sees the channel only ----

  /** What the channel has delivered or holds for its reader, as events without their run. */
  function Events(ts: seq<Tagged>): seq<Event> {
    seq(|ts|, i requires 0 <= i < |ts| => ts[i].event)
  }

  ghost predicate JoinedFirst(log: seq<Tagged>, c: Chan) {
    forall i :: 0 <= i < c.joined && i < |log| ==> log[i].run != c.run
  }

  ghost predicate NeverFull(c: Chan) {
    forall i :: 0 <= i < |c.occupancy| ==> c.occupancy[i] < BUFFER
  }

  /** The channel was offered exactly its run's events, and had room for each. */
  ghost predicate HearsAll(log: seq<Tagged>, c: Chan) {
    NeverFull(c) && forall i :: 0 <= i < |log| ==> (log[i].run == c.run <==> c.joined <= i < c.joined + |c.occupancy|)
  }

  /** For an attached channel that is: attached before the first event, no event of another run, never full. */
  lemma AttachedHearsAllIff(s: State, c: ChanId)
    requires Reachable(s) && c in s.hub.subs && c in s.hub.chans
    ensures HearsAll(s.hub.log, s.hub.chans[c]) <==>
      NeverFull(s.hub.chans[c]) && JoinedFirst(s.hub.log, s.hub.chans[c]) && OwnSince(s.hub.log, s.hub.chans[c])
  {
    ReachableInv(s);
    OfferedAllIff(s.hub.log, s.hub.chans[c]);
  }

  lemma OfferedAllIff(log: seq<Tagged>, c: Chan)
    requires c.joined + |c.occupancy| == |log|
    ensures HearsAll(log, c) <==> NeverFull(c) && JoinedFirst(log, c) && OwnSince(log, c)
  {
  }

  /** Once its run is marked done and it is closed or detached, whatever follows takes nothing from that. */
  lemma EndedHearsAll(s: State, c: ChanId, step: Step)
    requires Inv(s) && Enabled(s, step) && !step.Crash? && !step.Restart?
    requires c in s.hub.chans && c !in s.hub.subs && HearsAll(s.hub.log, s.hub.chans[c])
    requires s.hub.chans[c].run in s.runs && s.runs[s.hub.chans[c].run].waiter != Waiting
    ensures var t := Apply(s, step);
      c in t.hub.chans && c !in t.hub.subs && HearsAll(t.hub.log, t.hub.chans[c])
  {
    if step.Act? {
      ActEnded(s, c, step.id, step.server, step.action);
    } else {
      QuietEnded(s, c, step);
    }
  }

  lemma QuietEnded(s: State, c: ChanId, step: Step)
    requires Enabled(s, step) && !step.Crash? && !step.Restart? && !step.Act?
    requires c in s.hub.chans && c !in s.hub.subs && HearsAll(s.hub.log, s.hub.chans[c])
    ensures var t := Apply(s, step);
      c in t.hub.chans && c !in t.hub.subs && HearsAll(t.hub.log, t.hub.chans[c])
  {
  }

  lemma ActEnded(s: State, c: ChanId, id: RunId, server: ServerId, a: E.Action)
    requires Inv(s) && Enabled(s, Act(id, server, a))
    requires c in s.hub.chans && c !in s.hub.subs && HearsAll(s.hub.log, s.hub.chans[c])
    requires s.hub.chans[c].run in s.runs && s.runs[s.hub.chans[c].run].waiter != Waiting
    ensures var t := Apply(s, Act(id, server, a));
      c in t.hub.chans && c !in t.hub.subs && HearsAll(t.hub.log, t.hub.chans[c])
  {
    ActorWaits(s, id, server, a);
    var e := s.runs[id].execs[server];
    EndedBroadcast(s.hub, c, id, E.EventsOf(e, a));
  }

  lemma {:induction false} EndedBroadcast(h: Hub, c: ChanId, id: RunId, evs: seq<Event>)
    requires c in h.chans && c !in h.subs && HearsAll(h.log, h.chans[c]) && id != h.chans[c].run
    requires h.chans[c].joined + |h.chans[c].occupancy| <= |h.log|
    ensures var h' := BroadcastAll(h, id, evs);
      && c in h'.chans && c !in h'.subs && h'.chans[c] == h.chans[c] && HearsAll(h'.log, h'.chans[c])
      && |h.log| <= |h'.log|
    decreases |evs|
  {
    if evs != [] {
      EndedBroadcast(h, c, id, evs[..|evs| - 1]);
    }
  }

  lemma {:induction false} NoRunEvents(log: seq<Tagged>, id: RunId)
    requires forall i :: 0 <= i < |log| ==> log[i].run != id
    ensures RunEvents(log, id) == []
    decreases |log|
  {
    if log != [] {
      NoRunEvents(log[..|log| - 1], id);
    }
  }

  /** A run's events are the stretch of the log that holds them. */
  lemma {:induction false} RunEventsStretch(log: seq<Tagged>, id: RunId, j: nat, k: nat)
    requires j < k <= |log|
    requires forall i :: 0 <= i < |log| ==> (log[i].run == id <==> j <= i < k)
    ensures RunEvents(log, id) == Events(log[j..k])
    decreases |log|
  {
    var n := |log| - 1;
    var init := log[..n];
    if k < |log| {
      RunEventsStretch(init, id, j, k);
      assert log[j..k] == init[j..k];
      assert RunEvents(init, id) + [] == RunEvents(init, id);
    } else if j < n {
      RunEventsStretch(init, id, j, n);
      assert log[j..k] == init[j..n] + [log[n]];
    } else {
      NoRunEvents(init, id);
      assert log[j..k] == [log[n]];
    }
  }

  lemma ReceivedIsRun(log: seq<Tagged>, c: Chan)
    requires ChanInv(log, c) && HearsAll(log, c)
    ensures Events(Received(c)) == RunEvents(log, c.run)
  {
    var j, k := c.joined, c.joined + |c.occupancy|;
    NothingDropped(log[j..k], c.occupancy);
    if j < k {
      RunEventsStretch(log, c.run, j, k);
    } else {
      NoRunEvents(log, c.run);
    }
  }

  /**
   * The simulation, for a browser that folds what its channel delivers and knows nothing of runs: with
   * a channel that was offered exactly its run's events, and had room for each, every server's entry
   * is the view of its execution; for a finished one the service's final status, exit code, error,
   * truncated flag and finish time, with the service's output the first 64 KiB of the browser's.
   */
  lemma ChannelSimulates(s: State, c: ChanId, i: nat)
    requires Reachable(s) && c in s.hub.chans && HearsAll(s.hub.log, s.hub.chans[c])
    requires s.hub.chans[c].run in s.runs && i < |s.runs[s.hub.chans[c].run].servers|
    ensures var id := s.hub.chans[c].run;
      var servers := s.runs[id].servers;
      var view := Fold(FromDispatch(NewResults(id, servers)), Events(Received(s.hub.chans[c])));
      && servers[i] in s.runs[id].execs && |view| == |servers|
      && var e := s.runs[id].execs[servers[i]];
         view[i] == ViewOf(e)
         && (e.pc == E.Exited ==>
               && view[i].status == e.result.status && view[i].exitCode == e.result.exitCode
               && view[i].error == OmitEmpty(e.result.error) && view[i].truncated == e.result.truncated
               && view[i].finishedAt == e.result.finishedAt && e.result.output == Capped(view[i].output))
  {
    SubscriberStream(s, c);
    ReceivedIsRun(s.hub.log, s.hub.chans[c]);
    ClientSimulates(s, s.hub.chans[c].run, i);
  }
}
