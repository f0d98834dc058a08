/** What a cancel does to the results of the run it signals, whatever happens afterwards. */
module BatchCancel {
  import opened BatchTypes
  import opened BatchProtocol
  import opened BatchInvariant
  import opened BatchTheorems
  import E = BatchExecution

  /** The result does not have its final value yet, or has it from a cancel. */
  predicate Undecided(e: E.Exec) {
    !E.Finalized(e) || e.sawCancel
  }

  /** Under a cancelled context no action decides otherwise. */
  lemma UndecidedStep(e: E.Exec, a: E.Action)
    requires E.Control(e) && E.Enabled(e, a) && SeesContext(a, true)
    requires |e.result.output| <= 65536
    ensures Undecided(E.Apply(e, a)) <==> Undecided(e)
  {
  }

  /** The run's context is cancelled, and this is what the execution on one server has to expect. */
  ghost predicate Signalled(s: State, id: RunId, server: ServerId, undecided: bool) {
    && s.up && id in s.runs && s.runs[id].cancelled && server in s.runs[id].execs
    && (Undecided(s.runs[id].execs[server]) <==> undecided)
  }

  lemma ExecControl(s: State, id: RunId, server: ServerId)
    requires Inv(s) && id in s.runs && server in s.runs[id].execs
    ensures E.Control(s.runs[id].execs[server])
  {
    assert RunInv(id, s.runs[id], s.db, s.targets, s.current, s.hub.log);
  }

  lemma ActedUndecided(rs: RunState, actor: ServerId, a: E.Action, server: ServerId)
    requires rs.cancelled && CanAct(rs, actor, a) && server in rs.execs && E.Control(rs.execs[server])
    ensures Acted(rs, actor, a).cancelled && server in Acted(rs, actor, a).execs
    ensures Undecided(Acted(rs, actor, a).execs[server]) <==> Undecided(rs.execs[server])
  {
    if actor == server {
      UndecidedStep(rs.execs[server], a);
    }
  }

  lemma ActSignalled(s: State, id: RunId, server: ServerId, undecided: bool, step: Step)
    requires Signalled(s, id, server, undecided) && E.Control(s.runs[id].execs[server]) && Enabled(s, step) && step.Act?
    ensures Signalled(Apply(s, step), id, server, undecided)
  {
    if step.id == id {
      ActedUndecided(s.runs[id], step.server, step.action, server);
    }
  }

  lemma PublishSignalled(s: State, id: RunId, server: ServerId, undecided: bool, step: Step)
    requires Inv(s) && Signalled(s, id, server, undecided) && Enabled(s, step) && step.Publish?
    ensures Signalled(Apply(s, step), id, server, undecided)
  {
  }

  lemma OtherSignalled(s: State, id: RunId, server: ServerId, undecided: bool, step: Step)
    requires Signalled(s, id, server, undecided) && Enabled(s, step)
    requires !step.Act? && !step.Publish? && !step.Crash? && !step.Restart?
    ensures Signalled(Apply(s, step), id, server, undecided)
  {
  }

  lemma StepSignalled(s: State, id: RunId, server: ServerId, undecided: bool, step: Step)
    requires Inv(s) && Signalled(s, id, server, undecided) && Enabled(s, step) && !step.Crash? && !step.Restart?
    ensures Signalled(Apply(s, step), id, server, undecided)
  {
    if step.Act? {
      ExecControl(s, id, server);
      ActSignalled(s, id, server, undecided, step);
    } else if step.Publish? {
      PublishSignalled(s, id, server, undecided, step);
    } else {
      OtherSignalled(s, id, server, undecided, step);
    }
  }

  /** The process neither crashes nor restarts. */
  ghost predicate Uninterrupted(steps: seq<Step>) {
    forall i :: 0 <= i < |steps| ==> !steps[i].Crash? && !steps[i].Restart?
  }

  lemma {:induction false} StaysSignalled(s: State, steps: seq<Step>, id: RunId, server: ServerId, undecided: bool)
    requires Inv(s) && Signalled(s, id, server, undecided) && Run(s, steps).Some? && Uninterrupted(steps)
    ensures Inv(Run(s, steps).value) && Signalled(Run(s, steps).value, id, server, undecided)
    decreases |steps|
  {
    if steps != [] {
      var n := |steps| - 1;
      StaysSignalled(s, steps[..n], id, server, undecided);
      var t := Run(s, steps[..n]).value;
      StepKeepsInv(t, steps[n]);
      StepSignalled(t, id, server, undecided, steps[n]);
    }
  }

  lemma ExitedVerdict(s: State, id: RunId, server: ServerId)
    requires Inv(s) && id in s.runs && server in s.runs[id].execs && s.runs[id].execs[server].pc == E.Exited
    ensures var e := s.runs[id].execs[server]; e.sawCancel ==> e.result.status == Failed && e.result.error == CANCELLED
  {
    assert RunInv(id, s.runs[id], s.db, s.targets, s.current, s.hub.log);
    E.FinishedExec(s.runs[id].execs[server], Proj(s.hub.log, id, server));
  }

  /**
   * Cancel ends the run's results: once its context is cancelled, however the process goes on, an
   * execution that finishes has ended as cancelled if and only if its result was not decided before,
   * and every such result is failed with the cancel as its error.
   */
  lemma CancelEndsResults(s: State, steps: seq<Step>, id: RunId, server: ServerId)
    requires Reachable(s) && s.up && id in s.runs && s.runs[id].cancelled && server in s.runs[id].execs
    requires Run(s, steps).Some? && Uninterrupted(steps)
    ensures var t := Run(s, steps).value;
      && id in t.runs && server in t.runs[id].execs
      && var e := t.runs[id].execs[server];
         e.pc == E.Exited ==>
           && (e.sawCancel <==> Undecided(s.runs[id].execs[server]))
           && (Undecided(s.runs[id].execs[server]) ==> e.result.status == Failed && e.result.error == "cancelled")
  {
    ReachableInv(s);
    StaysSignalled(s, steps, id, server, Undecided(s.runs[id].execs[server]));
    var t := Run(s, steps).value;
    if t.runs[id].execs[server].pc == E.Exited {
      ExitedVerdict(t, id, server);
    }
  }

  /** ... and only a cancel does that: without one no execution sees its context cancelled. */
  lemma OnlyCancelCancels(s: State, id: RunId, server: ServerId)
    requires Reachable(s) && id in s.runs && server in s.runs[id].execs && !s.runs[id].cancelled
    ensures !s.runs[id].execs[server].sawCancel
  {
    RunIsSound(s, id);
  }
}
