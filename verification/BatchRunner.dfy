/**
 * runOne as one sequential method. What the other goroutines, the remote side, the store and the
 * clock do to it is an Environment fixed in advance; a ghost trace records its actions and proves
 * that the code is a run of the execution machine, so everything proved of the machine holds of it.
 */
module BatchRunner {
  import opened Prelude
  import opened BatchTypes
  import opened BatchOutput
  import E = BatchExecution

  /** One Read that returned data: the chunk, whether an error came with it, and its flush. */
  datatype Chunk = Chunk(data: seq<Byte>, last: bool, now: Time, after: Time, saved: bool)

  datatype Environment = Environment(
    started: Time,
    startSaved: bool,
    script: Option<string>,
    open: Option<string>,
    cancelledAtCheck: bool,
    input: seq<Chunk>,
    wait: E.WaitResult,
    cancelledAtDecision: bool,
    cancelledAtFinalize: bool,
    finished: Time,
    outcomeError: Option<string>,
    finalSaved: bool)

  /** Reads return data, and a read that carries an error is the last one. */
  ghost predicate WellFormed(env: Environment) {
    forall i :: 0 <= i < |env.input| ==> env.input[i].data != [] && (env.input[i].last ==> i == |env.input| - 1)
  }

  function Data(input: seq<Chunk>): seq<seq<Byte>> {
    if input == [] then [] else Data(input[..|input| - 1]) + [input[|input| - 1].data]
  }

  lemma DataSnoc(input: seq<Chunk>, i: nat)
    requires i < |input|
    ensures Data(input[..i + 1]) == Data(input[..i]) + [input[i].data]
  {
    assert input[..i + 1][..i] == input[..i];
  }

  /** The clock is read in order. */
  ghost predicate ClockAdvances(env: Environment) {
    && (forall i :: 0 <= i < |env.input| ==> env.input[i].now <= env.input[i].after)
    && (forall i, j :: 0 <= i < j < |env.input| ==> env.input[i].after <= env.input[j].now)
  }

  /** A point of a machine's run: its state and everything broadcast so far. */
  datatype Node = Node(exec: E.Exec, said: seq<Event>)

  ghost predicate IsStep(n: Node, a: E.Action, n': Node) {
    && E.Enabled(n.exec, a) && |n.exec.result.output| <= MAX_OUTPUT
    && n' == Node(E.Apply(n.exec, a), n.said + E.EventsOf(n.exec, a))
  }

  /** The nodes are the run of the machine on the actions, from the start of an execution. */
  ghost predicate IsRun(run: RunId, server: ServerId, interval: int, nodes: seq<Node>, actions: seq<E.Action>) {
    && |nodes| == |actions| + 1
    && nodes[0] == Node(E.Start(run, server, interval), [])
    && forall i {:trigger IsStep(nodes[i], actions[i], nodes[i + 1])} :: 0 <= i < |actions| ==>
         IsStep(nodes[i], actions[i], nodes[i + 1])
  }

  /** Every run of the machine keeps the execution invariant. */
  lemma {:induction false} RunInvariant(run: RunId, server: ServerId, interval: int, nodes: seq<Node>,
                                        actions: seq<E.Action>, i: nat)
    requires IsRun(run, server, interval, nodes, actions) && i < |nodes|
    ensures E.ExecInv(nodes[i].exec, nodes[i].said)
    decreases i
  {
    if i == 0 {
      E.StartInv(run, server, interval);
    } else {
      var k := i - 1;
      RunInvariant(run, server, interval, nodes, actions, k);
      assert IsStep(nodes[k], actions[k], nodes[k + 1]);
      E.StepInv(nodes[k].exec, actions[k], nodes[k].said);
    }
  }

  lemma RunSnoc(run: RunId, server: ServerId, interval: int, nodes: seq<Node>, actions: seq<E.Action>, a: E.Action, n: Node)
    requires IsRun(run, server, interval, nodes, actions) && IsStep(nodes[|nodes| - 1], a, n)
    ensures IsRun(run, server, interval, nodes + [n], actions + [a])
  {
    forall i | 0 <= i < |actions| + 1 ensures IsStep((nodes + [n])[i], (actions + [a])[i], (nodes + [n])[i + 1]) {
      if i < |actions| {
        assert IsStep(nodes[i], actions[i], nodes[i + 1]);
      }
    }
  }

  /** What the machine remembers of its environment, and the timestamps of its result. */
  datatype Facts = Facts(fault: Option<string>, waited: Option<E.WaitResult>, sent: seq<seq<Byte>>, sawCancel: bool,
                         startedAt: Option<Time>, finishedAt: Option<Time>)

  function FactsOf(e: E.Exec): Facts {
    Facts(e.fault, e.waited, e.sent, e.sawCancel, e.result.startedAt, e.result.finishedAt)
  }

  /** A started execution to which nothing has happened yet. */
  function Begun(env: Environment): Facts {
    Facts(None, None, [], false, Some(env.started), None)
  }

  /** What an execution in this environment must remember: how far it got decides what it saw. */
  function Lived(env: Environment): Facts {
    var f := Begun(env).(finishedAt := Some(env.finished));
    if env.script.Some? || env.open.Some? then
      f.(fault := if env.script.Some? then env.script else env.open, sawCancel := env.cancelledAtFinalize)
    else if env.cancelledAtCheck then f.(sawCancel := true)
    else
      f.(waited := Some(env.wait), sent := Data(env.input),
         sawCancel := env.cancelledAtDecision || (Fails(env) && env.cancelledAtFinalize))
  }

  /** The process is over, but not by an exit status that counts. */
  predicate Fails(env: Environment) {
    env.cancelledAtDecision || env.wait.WaitErr?
  }

  /** The execution gets as far as pumping output. */
  predicate Pumps(env: Environment) {
    env.script.None? && env.open.None? && !env.cancelledAtCheck
  }

  /** The store takes the final result, if not at once then at the second attempt. */
  predicate FinallySaved(env: Environment) {
    env.finalSaved || (Pumps(env) && !Fails(env) && env.outcomeError.None?)
  }

  /**
   * How an execution in this environment must end. A cancel outranks the error that stopped it; then
   * the exit status decides, where an unknown one is a success without a code; a store that refuses
   * the outcome turns it into a failure, with the code kept.
   */
  ghost predicate EndsAs(env: Environment, status: ResultStatus, error: string, exitCode: Option<int>) {
    if !Pumps(env) || Fails(env) then
      && status == Failed && exitCode == None
      && error == if env.script.Some? then (if env.cancelledAtFinalize then "cancelled" else env.script.value)
                  else if env.open.Some? then (if env.cancelledAtFinalize then "cancelled" else env.open.value)
                  else if env.cancelledAtCheck || env.cancelledAtDecision || env.cancelledAtFinalize then "cancelled"
                  else env.wait.message
    else
      var exit := env.wait.status;
      && exitCode == (if exit.known then Some(exit.code) else None)
      && if env.outcomeError.Some? then status == Failed && error == "persist result: " + env.outcomeError.value
         else if exit.known && exit.code != 0 then status == Failed && E.ExitText(error, exit.code)
         else status == Success && error == ""
  }

  /** The machine's verdict is that ending. */
  lemma VerdictEnds(env: Environment, e: E.Exec)
    requires e.fault == Lived(env).fault && e.waited == Lived(env).waited && e.sawCancel == Lived(env).sawCancel
    requires Pumps(env) && !Fails(env) ==> e.persistError == env.outcomeError
    ensures var (status, error, exitCode) := E.Verdict(e); EndsAs(env, status, error, exitCode)
  {
    if Pumps(env) && !Fails(env) && env.wait.status.known {
      E.DecimalSpells(env.wait.status.code);
    }
  }

  // ---- Mid-run flushes ----

  /**
   * Of the first i chunks, those at these places are flushed: the first one, and then each that comes at
   * least an interval after the flush before it. So every other chunk comes less than that after one.
   */
  ghost predicate Schedule(env: Environment, interval: int, i: nat, at: seq<nat>)
    requires i <= |env.input|
  {
    && (if i == 0 then at == [] else at != [] && at[0] == 0)
    && forall k :: 0 <= k < |at| ==> FlushedAt(env, interval, i, at, k)
  }

  /** Where the next flush is; i if there is none yet. */
  function NextFlush(i: nat, at: seq<nat>, k: nat): nat {
    if k + 1 < |at| then at[k + 1] else i
  }

  /** The flush at place at[k] is followed by chunks less than an interval after it, until the next flush. */
  ghost predicate FlushedAt(env: Environment, interval: int, i: nat, at: seq<nat>, k: nat)
    requires i <= |env.input| && k < |at|
  {
    var next := NextFlush(i, at, k);
    && at[k] < next <= i
    && QuietAfter(env, interval, at[k], next)
    && (k + 1 < |at| ==> next < i && env.input[next].now - env.input[at[k]].after >= interval)
  }

  /** The chunks between a flush and place `to` come less than an interval after the flush. */
  ghost predicate QuietAfter(env: Environment, interval: int, flush: nat, to: nat)
    requires flush < |env.input| && to <= |env.input|
  {
    forall j :: flush < j < to ==> env.input[j].now - env.input[flush].after < interval
  }

  /** When the last flush ended. */
  function LastOf(env: Environment, at: seq<nat>): Option<Time>
    requires at == [] || at[|at| - 1] < |env.input|
  {
    if at == [] then None else Some(env.input[at[|at| - 1]].after)
  }

  /** Every flush but the last has all it needs. */
  lemma EarlierFlush(env: Environment, interval: int, i: nat, at: seq<nat>, i': nat, at': seq<nat>, k: nat)
    requires i <= i' <= |env.input| && k < |at| <= |at'| && at'[k] == at[k] && FlushedAt(env, interval, i, at, k)
    requires k + 1 < |at| && at'[k + 1] == at[k + 1]
    ensures FlushedAt(env, interval, i', at', k)
  {
  }

  /** Chunk i is flushed when it is due. */
  lemma ScheduleFlush(env: Environment, interval: int, i: nat, at: seq<nat>)
    requires i < |env.input| && Schedule(env, interval, i, at)
    requires at == [] || env.input[i].now - env.input[LastPlace(env, interval, i, at)].after >= interval
    ensures Schedule(env, interval, i + 1, at + [i])
  {
    var i', at' := i + 1, at + [i];
    forall k | 0 <= k < |at'| ensures FlushedAt(env, interval, i', at', k) {
      if k < |at| {
        assert FlushedAt(env, interval, i, at, k);
        if k + 1 < |at| {
          EarlierFlush(env, interval, i, at, i', at', k);
        }
      }
    }
  }

  lemma ScheduleWait(env: Environment, interval: int, i: nat, at: seq<nat>)
    requires i < |env.input| && Schedule(env, interval, i, at) && at != []
    requires env.input[i].now - env.input[LastPlace(env, interval, i, at)].after < interval
    ensures Schedule(env, interval, i + 1, at)
  {
    var i' := i + 1;
    forall k | 0 <= k < |at| ensures FlushedAt(env, interval, i', at, k) {
      assert FlushedAt(env, interval, i, at, k);
      if k + 1 < |at| {
        EarlierFlush(env, interval, i, at, i', at, k);
      }
    }
  }

  /** The place of the last flush. */
  ghost function LastPlace(env: Environment, interval: int, i: nat, at: seq<nat>): (n: nat)
    requires i <= |env.input| && Schedule(env, interval, i, at) && at != []
    ensures n < i && n == at[|at| - 1]
  {
    assert FlushedAt(env, interval, i, at, |at| - 1);
    at[|at| - 1]
  }

  /** Flushes are at least an interval apart, so there cannot be many. */
  lemma {:induction false} ScheduleSpreads(env: Environment, interval: int, i: nat, at: seq<nat>, k: nat)
    requires i <= |env.input| && Schedule(env, interval, i, at) && ClockAdvances(env) && k < |at|
    ensures at[k] < i && k * interval <= env.input[at[k]].now - env.input[0].now
    decreases k
  {
    assert FlushedAt(env, interval, i, at, k);
    if k > 0 {
      ScheduleSpreads(env, interval, i, at, k - 1);
      assert FlushedAt(env, interval, i, at, k - 1);
      assert k * interval == (k - 1) * interval + interval;
    }
  }

  lemma FewFlushes(env: Environment, interval: int, i: nat, at: seq<nat>)
    requires 0 < i <= |env.input| && Schedule(env, interval, i, at) && ClockAdvances(env)
    ensures (|at| - 1) * interval <= env.input[i - 1].after - env.input[0].now
  {
    ScheduleSpreads(env, interval, i, at, |at| - 1);
    var last := at[|at| - 1];
    if last < i - 1 {
      assert env.input[last].after <= env.input[i - 1].now;
    }
  }

  /** After the last flush that the store took, its row holds the output up to the chunk flushed. */
  ghost predicate RowCurrent(env: Environment, at: seq<nat>, row: RunResult, before: seq<seq<Byte>>)
  {
    forall k :: LastSaved(env, at, k) ==> Holds(row, Flatten(before + Data(env.input[..at[k] + 1])))
  }

  predicate LastSaved(env: Environment, at: seq<nat>, k: int)
  {
    && 0 <= k < |at| && at[k] < |env.input| && env.input[at[k]].saved
    && forall m :: k < m < |at| ==> at[m] < |env.input| && !env.input[at[m]].saved
  }

  lemma RowStaysCurrent(env: Environment, at: seq<nat>, i: nat, row: RunResult, row': RunResult, before: seq<seq<Byte>>)
    requires i < |env.input| && RowCurrent(env, at, row, before)
    requires if env.input[i].saved then Holds(row', Flatten(before + Data(env.input[..i + 1]))) else row' == row
    ensures RowCurrent(env, at + [i], row', before)
  {
    forall k | LastSaved(env, at + [i], k) ensures Holds(row', Flatten(before + Data(env.input[..(at + [i])[k] + 1]))) {
      if k < |at| {
        assert (at + [i])[|at|] == i;
        assert forall m :: k < m < |at| ==> (at + [i])[m] == at[m];
        assert LastSaved(env, at, k);
      }
    }
  }

  /** The row lags by less than an interval: what came later than that after the last flush is in it. */
  ghost predicate RowLags(env: Environment, interval: int, row: RunResult, before: seq<seq<Byte>>) {
    exists f :: 0 <= f < |env.input| && Holds(row, Flatten(before + Data(env.input[..f + 1])))
      && QuietAfter(env, interval, f, |env.input|)
  }

  lemma HealthyRow(env: Environment, interval: int, at: seq<nat>, row: RunResult, before: seq<seq<Byte>>)
    requires env.input != [] && Schedule(env, interval, |env.input|, at) && RowCurrent(env, at, row, before)
    requires forall i :: 0 <= i < |env.input| ==> env.input[i].saved
    ensures RowLags(env, interval, row, before)
  {
    var k := |at| - 1;
    assert FlushedAt(env, interval, |env.input|, at, k);
    assert LastSaved(env, at, k);
  }

  class Runner {
    const run: RunId
    const server: ServerId
    const interval: int
    var result: RunResult
    var sessionOpen: bool
    var lastFlush: Option<Time>
    var events: seq<Event>
    var row: RunResult
    ghost var e: E.Exec
    ghost var said: seq<Event>
    ghost var nodes: seq<Node>
    ghost var actions: seq<E.Action>

    constructor (run: RunId, server: ServerId, interval: int)
      ensures this.run == run && this.server == server && this.interval == interval
      ensures Tracks() && e.pc == E.Created && events == []
    {
      this.run, this.server, this.interval := run, server, interval;
      result := PendingResult(run, server);
      sessionOpen, lastFlush, events, row := false, None, [], PendingResult(run, server);
      e, said, nodes, actions := E.Start(run, server, interval), [], [Node(E.Start(run, server, interval), [])], [];
    }

    /** The ghost machine has run the recorded actions. */
    ghost predicate Played() reads this {
      && IsRun(run, server, interval, nodes, actions) && nodes[|nodes| - 1] == Node(e, said)
      && |e.result.output| <= MAX_OUTPUT
    }

    /** The fields are those of that machine; `row` is the store's, which has the result if saved. */
    ghost predicate Tracks() reads this {
      && Played()
      && result == e.result && lastFlush == e.lastFlush && interval == e.interval && events == said
      && (sessionOpen <==> e.session == E.Open) && (e.saved ==> row == result)
    }

    ghost method Did(a: E.Action)
      requires Played() && E.Enabled(e, a)
      modifies this`e, this`said, this`nodes, this`actions
      ensures Played() && e == E.Apply(old(e), a) && said == old(said) + E.EventsOf(old(e), a)
    {
      var n := Node(E.Apply(e, a), said + E.EventsOf(e, a));
      RunSnoc(run, server, interval, nodes, actions, a, n);
      RunInvariant(run, server, interval, nodes + [n], actions + [a], |nodes|);
      e, said, nodes, actions := n.exec, n.said, nodes + [n], actions + [a];
    }

    lemma UnderControl()
      requires Played()
      ensures E.Control(e)
    {
      RunInvariant(run, server, interval, nodes, actions, |nodes| - 1);
    }

    lemma Finished()
      requires Played() && e.pc == E.Exited
      ensures said == [E.RunningEvent(e.result.serverId)] + E.Outputs(e.result.serverId, e.sent) + [StatusOf(e.result)]
      ensures (e.result.status, e.result.error, e.result.exitCode) == E.Verdict(e) && Holds(e.result, Flatten(e.sent))
      ensures e.session != E.Open
    {
      RunInvariant(run, server, interval, nodes, actions, |nodes| - 1);
      E.FinishedExec(e, said);
    }

    /** persistResult, with the store failing or not. */
    method PersistResult(ok: bool)
      modifies this`row
      ensures row == if ok then result else old(row)
    {
      if ok {
        row := result;
      }
    }

    method EmitStatus()
      modifies this`events
      ensures events == old(events) + [StatusOf(result)]
    {
      events := events + [StatusOf(result)];
    }

    method AppendOutput(chunk: seq<Byte>)
      requires |result.output| <= MAX_OUTPUT
      modifies this`result
      ensures result == Append(old(result), chunk)
    {
      if result.truncated {
        return;
      }
      var room := MAX_OUTPUT - |result.output|;
      if |chunk| > room {
        result := result.(output := result.output + chunk[..room], truncated := true);
      } else {
        result := result.(output := result.output + chunk);
      }
    }

    method MarkRunning(env: Environment)
      requires Tracks() && e.pc == E.Created
      modifies this
      ensures Tracks() && e.pc == E.WriteScript && FactsOf(e) == Begun(env)
      ensures env.startSaved ==> row.status == Running && row.startedAt == Some(env.started)
    {
      UnderControl();
      result := result.(status := Running, startedAt := Some(env.started));
      Did(E.Begin(env.started));
      PersistResult(env.startSaved);
      Did(E.Save(env.startSaved));
      EmitStatus();
      Did(E.Emit);
    }

    /** The terminal status event. */
    method Announce()
      requires Tracks() && e.pc == E.Announce
      modifies this
      ensures Tracks() && e.session == old(e.session) && FactsOf(e) == FactsOf(old(e)) && e.persistError == old(e.persistError)
      ensures e.saved == old(e.saved)
      ensures e.pc == if e.session == E.Unopened then E.Exited else E.Unregister
    {
      EmitStatus();
      Did(E.Emit);
    }

    method FinalizeFailed(env: Environment, message: string)
      requires Tracks() && e.pc == E.Fail(message)
      modifies this
      ensures Tracks() && e.session == old(e.session)
      ensures FactsOf(e) == FactsOf(old(e)).(sawCancel := old(e.sawCancel) || env.cancelledAtFinalize,
                                             finishedAt := Some(env.finished))
      ensures e.saved == env.finalSaved
      ensures e.pc == if old(e.session) == E.Unopened then E.Exited else E.Unregister
    {
      var errMsg := message;
      if env.cancelledAtFinalize {
        errMsg := CANCELLED;
      }
      result := result.(status := Failed, error := errMsg, finishedAt := Some(env.finished));
      Did(E.Finalize(env.cancelledAtFinalize, env.finished));
      PersistResult(env.finalSaved);
      Did(E.Save(env.finalSaved));
      Announce();
    }

    /** A chunk goes to the buffer and to the subscribers. */
    method Absorb(c: Chunk)
      requires Tracks() && e.pc == E.Pump && e.reader == E.Reading && c.data != []
      modifies this
      ensures Tracks() && e.pc == E.Pump && e.waited == old(e.waited) && e.session == old(e.session)
      ensures e.reader == E.Flushing(c.last) && lastFlush == old(lastFlush) && row == old(row)
      ensures FactsOf(e) == FactsOf(old(e)).(sent := old(e.sent) + [c.data])
    {
      AppendOutput(c.data);
      Did(E.Read(c.data, c.last));
      events := events + [Output(result.serverId, c.data)];
      Did(E.Emit);
    }

    /**
     * One turn of the read loop: append, broadcast, and persist if this is the first chunk or comes at
     * least an interval after the last flush.
     */
    method Deliver(c: Chunk) returns (flushed: bool)
      requires Tracks() && e.pc == E.Pump && e.reader == E.Reading && c.data != []
      modifies this
      ensures Tracks() && e.pc == E.Pump && e.waited == old(e.waited) && e.session == old(e.session)
      ensures e.reader == (if c.last then E.Drained else E.Reading)
      ensures FactsOf(e) == FactsOf(old(e)).(sent := old(e.sent) + [c.data])
      ensures flushed <==> old(lastFlush).None? || c.now - old(lastFlush).value >= interval
      ensures lastFlush == if flushed then Some(c.after) else old(lastFlush)
      ensures if flushed && c.saved then Holds(row, Flatten(e.sent)) else row == old(row)
    {
      Absorb(c);
      flushed := E.FlushDue(lastFlush, c.now, interval);
      if flushed {
        PersistResult(c.saved);
        lastFlush := Some(c.after);
      }
      Buffered();
      Did(E.Flush(c.now, c.after, c.saved));
    }

    /** Between turns the result holds what has been sent. */
    lemma Buffered()
      requires Played() && e.pc == E.Pump && !e.reader.Sending?
      ensures Holds(e.result, Flatten(e.sent))
    {
      RunInvariant(run, server, interval, nodes, actions, |nodes| - 1);
    }

    /** The read loop while data comes; `at` says which chunks it flushes. */
    method ReadChunks(env: Environment) returns (flushes: nat, ghost at: seq<nat>)
      requires Tracks() && e.pc == E.Pump && e.reader == E.Reading && lastFlush == None && WellFormed(env)
      modifies this
      ensures Tracks() && e.pc == E.Pump && e.session == old(e.session)
      ensures e.reader == if env.input != [] && env.input[|env.input| - 1].last then E.Drained else E.Reading
      ensures flushes == |at| && Schedule(env, interval, |env.input|, at) && RowCurrent(env, at, row, old(e.sent))
      ensures FactsOf(e) == FactsOf(old(e)).(sent := old(e.sent) + Data(env.input))
    {
      flushes, at := 0, [];
      for i := 0 to |env.input|
        invariant Pumped(old(e), env, i, at) && flushes == |at|
      {
        flushes, at := Turn(old(e), env, i, flushes, at);
      }
      assert env.input[..|env.input|] == env.input;
    }

    /** The read loop's invariant: i chunks have been delivered since the machine was in state `from`. */
    ghost predicate Pumped(from: E.Exec, env: Environment, i: nat, at: seq<nat>)
      requires i <= |env.input|
      reads this
    {
      && Tracks() && e.pc == E.Pump && e.session == from.session
      && e.reader == (if i > 0 && env.input[i - 1].last then E.Drained else E.Reading)
      && Schedule(env, interval, i, at) && (at != [] ==> at[|at| - 1] < i) && lastFlush == LastOf(env, at)
      && RowCurrent(env, at, row, from.sent)
      && FactsOf(e) == FactsOf(from).(sent := from.sent + Data(env.input[..i]))
    }

    method Turn(ghost from: E.Exec, env: Environment, i: nat, flushes: nat, ghost at: seq<nat>)
      returns (flushes': nat, ghost at': seq<nat>)
      requires i < |env.input| && WellFormed(env) && Pumped(from, env, i, at) && flushes == |at|
      modifies this
      ensures Pumped(from, env, i + 1, at') && flushes' == |at'|
    {
      DataSnoc(env.input, i);
      ghost var before := row;
      var flushed := Deliver(env.input[i]);
      flushes' := if flushed then flushes + 1 else flushes;
      at' := if flushed then at + [i] else at;
      assert from.sent + Data(env.input[..i]) + [env.input[i].data] == from.sent + Data(env.input[..i + 1]);
      if flushed {
        ScheduleFlush(env, interval, i, at);
        RowStaysCurrent(env, at, i, before, row, from.sent);
      } else {
        ScheduleWait(env, interval, i, at);
      }
    }

    /**
     * The read loop to its end: the chunks it flushes are exactly those that come an interval or more
     * after the flush before, so there are at most 1 + floor(elapsed / interval) flushes, and with a
     * healthy store all output is stored but what came less than an interval after the last one.
     */
    method ReadLoop(env: Environment) returns (flushes: nat, ghost at: seq<nat>)
      requires Tracks() && e.pc == E.Pump && e.reader == E.Reading && lastFlush == None && WellFormed(env)
      modifies this
      ensures Tracks() && e.pc == E.Pump && e.reader == E.Drained && e.session == old(e.session)
      ensures flushes == |at| && Schedule(env, interval, |env.input|, at) && RowCurrent(env, at, row, old(e.sent))
      ensures env.input != [] && ClockAdvances(env) ==>
        1 <= flushes && (flushes - 1) * interval <= env.input[|env.input| - 1].after - env.input[0].now
      ensures env.input != [] && (forall i :: 0 <= i < |env.input| ==> env.input[i].saved) ==>
        RowLags(env, interval, row, old(e.sent))
      ensures FactsOf(e) == FactsOf(old(e)).(sent := old(e.sent) + Data(env.input))
    {
      flushes, at := ReadChunks(env);
      if env.input != [] && ClockAdvances(env) {
        FewFlushes(env, interval, |env.input|, at);
      }
      if env.input != [] && forall i :: 0 <= i < |env.input| ==> env.input[i].saved {
        HealthyRow(env, interval, at, row, old(e.sent));
      }
      if e.reader == E.Reading {
        Did(E.ReadEnd);
      }
    }

    /** The process ended without a wait error: its exit status decides. */
    method RecordOutcome(env: Environment, status: E.ExitStatus)
      requires Tracks() && e.pc == E.Pump && e.reader == E.Drained && e.waited == Some(E.WaitOk(status))
      requires !env.cancelledAtDecision
      modifies this
      ensures Tracks() && e.pc == E.PersistOutcome && e.session == old(e.session)
      ensures FactsOf(e) == FactsOf(old(e)).(finishedAt := Some(env.finished))
      ensures e.persistError == None
    {
      if status.known && status.code != 0 {
        result := result.(status := Failed, error := "exit status " + E.Decimal(status.code), exitCode := Some(status.code));
      } else {
        result := result.(status := Success);
        if status.known && status.code == 0 {
          result := result.(exitCode := Some(0));
        }
      }
      result := result.(finishedAt := Some(env.finished));
      Did(E.Decide(false, env.finished));
      UnderControl();
    }

    /** Persist the outcome; a store that cannot record it turns the result into a failure. */
    method Persist(env: Environment)
      requires Tracks() && e.pc == E.PersistOutcome && e.persistError == None
      modifies this
      ensures Tracks() && e.pc == E.Announce && e.session == old(e.session)
      ensures FactsOf(e) == FactsOf(old(e)) && e.persistError == env.outcomeError
      ensures e.saved == (env.outcomeError.None? || env.finalSaved)
    {
      PersistResult(env.outcomeError.None?);
      Did(E.SaveOutcome(env.outcomeError));
      if env.outcomeError.Some? {
        result := result.(status := Failed, error := "persist result: " + env.outcomeError.value);
        PersistResult(env.finalSaved);
        Did(E.Save(env.finalSaved));
      }
    }

    /** After the process ended and the output drained: a cancel first, then a wait error, then the status. */
    method Settle(env: Environment)
      requires Tracks() && e.pc == E.Pump && e.reader == E.Drained && e.waited == Some(env.wait)
      requires e.session != E.Unopened && Pumps(env)
      modifies this
      ensures Tracks() && e.pc == E.Unregister && SettledFrom(env, old(FactsOf(e)))
      ensures e.saved == FinallySaved(env) && EndsAs(env, result.status, result.error, result.exitCode)
    {
      UnderControl();
      Conclude(env);
      Concluded();
      VerdictEnds(env, e);
    }

    ghost predicate SettledFrom(env: Environment, before: Facts) reads this {
      && FactsOf(e) == before.(finishedAt := Some(env.finished),
                               sawCancel := env.cancelledAtDecision || (Fails(env) && env.cancelledAtFinalize))
      && (!Fails(env) ==> e.persistError == env.outcomeError)
    }

    /** The three ways on. */
    method Conclude(env: Environment)
      requires Tracks() && e.pc == E.Pump && e.reader == E.Drained && e.waited == Some(env.wait)
      requires e.session != E.Unopened && Pumps(env) && !e.sawCancel
      modifies this
      ensures Tracks() && e.pc == E.Unregister && SettledFrom(env, old(FactsOf(e)))
      ensures e.saved == FinallySaved(env)
    {
      if env.cancelledAtDecision {
        Did(E.Decide(true, env.finished));
        FinalizeFailed(env, CANCELLED);
      } else if env.wait.WaitErr? {
        Did(E.Decide(false, env.finished));
        FinalizeFailed(env, env.wait.message);
      } else {
        RecordOutcome(env, env.wait.status);
        Persist(env);
        Announce();
      }
    }

    lemma Concluded()
      requires Played() && E.Finalized(e)
      ensures (e.result.status, e.result.error, e.result.exitCode) == E.Verdict(e)
    {
      RunInvariant(run, server, interval, nodes, actions, |nodes| - 1);
    }

    /** The deferred cleanup: leave the session table, then close. */
    method CloseSession()
      requires Tracks() && e.pc == E.Unregister
      modifies this
      ensures Tracks() && e.pc == E.Exited && FactsOf(e) == FactsOf(old(e)) && e.persistError == old(e.persistError)
      ensures e.saved == old(e.saved)
    {
      Did(E.Deregister);
      sessionOpen := false;
      Did(E.Close);
    }

    /** Pump the output to its end, take the exit status, settle. */
    method PumpAndSettle(env: Environment)
      requires Tracks() && e.pc == E.Pump && e.reader == E.Reading && lastFlush == None && WellFormed(env)
      requires FactsOf(e) == Begun(env) && e.session != E.Unopened && Pumps(env)
      modifies this
      ensures Tracks() && e.pc == E.Unregister && FactsOf(e) == Lived(env) && e.saved == FinallySaved(env)
      ensures !Fails(env) ==> e.persistError == env.outcomeError
    {
      var _, _ := ReadLoop(env);
      Did(E.WaitReturns(env.wait));
      Settle(env);
      assert [] + Data(env.input) == Data(env.input);
    }

    /** Register the session, then check for a cancel; one seen here closes the session at once. */
    method RegisterAndCheck(env: Environment)
      requires Tracks() && e.pc == E.RegisterSession && FactsOf(e) == Begun(env)
      modifies this
      ensures Tracks() && e.session != E.Unopened && lastFlush == None
      ensures FactsOf(e) == Begun(env).(sawCancel := env.cancelledAtCheck)
      ensures env.cancelledAtCheck ==> e.pc == E.Fail(CANCELLED)
      ensures !env.cancelledAtCheck ==> e.pc == E.Pump && e.reader == E.Reading
    {
      Did(E.Register);
      UnderControl();
      Did(E.Check(env.cancelledAtCheck));
      if env.cancelledAtCheck {
        sessionOpen := false;
        Did(E.CloseAbandoned);
      }
    }

    /** From the open session on: register, check for a cancel, pump and settle, clean up. */
    method Attend(env: Environment)
      requires Tracks() && e.pc == E.RegisterSession && WellFormed(env)
      requires FactsOf(e) == Begun(env) && env.script.None? && env.open.None?
      modifies this
      ensures Tracks() && e.pc == E.Exited && FactsOf(e) == Lived(env) && e.saved == FinallySaved(env)
      ensures Pumps(env) && !Fails(env) ==> e.persistError == env.outcomeError
    {
      RegisterAndCheck(env);
      if env.cancelledAtCheck {
        FinalizeFailed(env, CANCELLED);
      } else {
        PumpAndSettle(env);
      }
      CloseSession();
    }

    /**
     * runOne. Whatever the environment does, the code ends with its session closed, having said
     * exactly one running status, its output and one terminal status, and with the result, times and
     * stored row that what it lived through calls for.
     */
    method RunOne(env: Environment)
      requires Tracks() && e.pc == E.Created && WellFormed(env)
      modifies this
      ensures Tracks() && e.pc == E.Exited && !sessionOpen && FactsOf(e) == Lived(env)
      ensures events == [E.RunningEvent(result.serverId)] + E.Outputs(result.serverId, e.sent) + [StatusOf(result)]
      ensures e.sent == if Pumps(env) then Data(env.input) else []
      ensures (result.status, result.error, result.exitCode) == E.Verdict(e)
      ensures EndsAs(env, result.status, result.error, result.exitCode)
      ensures result.startedAt == Some(env.started) && result.finishedAt == Some(env.finished)
      ensures Holds(result, Flatten(e.sent))
      ensures FinallySaved(env) ==> row == result
    {
      MarkRunning(env);
      Work(env);
      Finished();
      VerdictEnds(env, e);
    }

    /** From the running status to the cleanup. */
    method Work(env: Environment)
      requires Tracks() && e.pc == E.WriteScript && FactsOf(e) == Begun(env) && WellFormed(env)
      modifies this
      ensures Tracks() && e.pc == E.Exited && FactsOf(e) == Lived(env) && e.saved == FinallySaved(env)
      ensures Pumps(env) && !Fails(env) ==> e.persistError == env.outcomeError
    {
      UnderControl();
      Did(E.Script(env.script));
      if env.script.Some? {
        FinalizeFailed(env, env.script.value);
      } else {
        Did(E.OpenPty(env.open));
        if env.open.Some? {
          FinalizeFailed(env, env.open.value);
        } else {
          sessionOpen := true;
          Attend(env);
        }
      }
    }
  }
}
