/**
 * One Server's execution as a machine of atomic actions. Whatever the other goroutines do reaches
 * it only through the cancel flag, the store's success and the clock, so those are parameters of
 * the actions; `sent`, `fault`, `sawCancel`, `persistError` and `saved` record history.
 */
module BatchExecution {
  import opened Prelude
  import opened BatchTypes
  import opened BatchOutput

  datatype ExitStatus = ExitStatus(known: bool, code: int)

  datatype WaitResult = WaitOk(status: ExitStatus) | WaitErr(message: string)

  /** The read loop: blocked in Read, holding a chunk to broadcast, checking the flush cadence, or at EOF. */
  datatype Reader = Reading | Sending(chunk: seq<Byte>, last: bool) | Flushing(last: bool) | Drained

  datatype SessionState = Unopened | Open | Closed

  datatype Pc =
    | Created
    | PersistStart
    | AnnounceStart
    | WriteScript
    | OpenSession
    | RegisterSession
    | CheckContext
    | Abandon
    | Pump
    | Fail(message: string)
    | PersistFailure
    | PersistOutcome
    | PersistAgain
    | Announce
    | Unregister
    | CloseSession
    | Exited

  datatype Exec = Exec(
    pc: Pc,
    result: RunResult,
    session: SessionState,
    reader: Reader,
    waited: Option<WaitResult>,
    interval: int,
    lastFlush: Option<Time>,
    sent: seq<seq<Byte>>,
    fault: Option<string>,
    sawCancel: bool,
    persistError: Option<string>,
    saved: bool)

  datatype Action =
    | Begin(now: Time)
    | Save(ok: bool)
    | Emit
    | Script(error: Option<string>)
    | OpenPty(error: Option<string>)
    | Register
    | Check(cancelled: bool)
    | CloseAbandoned
    | Read(chunk: seq<Byte>, last: bool)
    | ReadEnd
    | Flush(now: Time, after: Time, ok: bool)
    | WaitReturns(outcome: WaitResult)
    | Decide(cancelled: bool, now: Time)
    | Finalize(cancelled: bool, now: Time)
    | SaveOutcome(error: Option<string>)
    | Deregister
    | Close

  /** An execution whose result has just been inserted into the store by the dispatch. */
  function Start(run: RunId, server: ServerId, interval: int): Exec {
    Exec(Created, PendingResult(run, server), Unopened, Reading, None, interval, None, [], None, false, None, true)
  }

  predicate Enabled(e: Exec, a: Action) {
    match a
    case Begin(_) => e.pc == Created
    case Save(_) => (e.pc.PersistStart? || e.pc.PersistFailure? || e.pc.PersistAgain?)
    case Emit => (e.pc.AnnounceStart? || e.pc.Announce?) || (e.pc == Pump && e.reader.Sending?)
    case Script(_) => e.pc == WriteScript
    case OpenPty(_) => e.pc == OpenSession
    case Register => e.pc == RegisterSession
    case Check(_) => e.pc == CheckContext
    case CloseAbandoned => e.pc == Abandon
    case Read(chunk, _) => e.pc == Pump && e.reader == Reading && chunk != []
    case ReadEnd => e.pc == Pump && e.reader == Reading
    case Flush(_, _, _) => e.pc == Pump && e.reader.Flushing?
    case WaitReturns(_) => e.pc == Pump && e.waited.None?
    case Decide(_, _) => e.pc == Pump && e.waited.Some? && e.reader == Drained
    case Finalize(_, _) => e.pc.Fail?
    case SaveOutcome(_) => e.pc == PersistOutcome
    case Deregister => e.pc == Unregister
    case Close => e.pc == CloseSession
  }

  /** At most one mid-run persist per flush interval; the first chunk always flushes. */
  predicate FlushDue(lastFlush: Option<Time>, now: Time, interval: int) {
    match lastFlush case None => true case Some(t) => now - t >= interval
  }

  /** fmt's %d. */
  function Decimal(n: int): string
    decreases if n < 0 then 1 - n else n
  {
    if n < 0 then "-" + Decimal(-n)
    else if n < 10 then [('0' as int + n) as char]
    else Decimal(n / 10) + [('0' as int + n % 10) as char]
  }

  /** The number that digits read as in base ten. */
  function Value(digits: string): int {
    if digits == "" then 0 else 10 * Value(digits[..|digits| - 1]) + (digits[|digits| - 1] as int - '0' as int)
  }

  /** The text is the decimal numeral of n: digits without a leading zero, after a minus sign if n is negative. */
  predicate Spells(text: string, n: int) {
    if n < 0 then text != "" && text[0] == '-' && SpellsNat(text[1..], -n) else SpellsNat(text, n)
  }

  predicate SpellsNat(text: string, n: nat) {
    && text != "" && (forall i :: 0 <= i < |text| ==> '0' <= text[i] <= '9')
    && Value(text) == n && (text[0] == '0' ==> text == "0")
  }

  lemma {:induction false} DecimalSpells(n: int)
    ensures Spells(Decimal(n), n)
    decreases if n < 0 then 1 - n else n
  {
    if n < 0 {
      DecimalSpells(-n);
      assert Decimal(n)[1..] == Decimal(-n);
    } else if n < 10 {
      assert Decimal(n)[..0] == "";
    } else {
      DecimalSpells(n / 10);
      assert Decimal(n)[..|Decimal(n)| - 1] == Decimal(n / 10);
      assert Decimal(n)[0] == Decimal(n / 10)[0];
    }
  }

  /** The text for a failing exit status. */
  ghost predicate ExitText(error: string, code: int) {
    exists numeral :: Spells(numeral, code) && error == "exit status " + numeral
  }

  /** The result of a process that ended without a wait error: only a known non-zero status fails it. */
  function Outcome(r: RunResult, s: ExitStatus, now: Time): RunResult {
    if s.known && s.code != 0 then
      r.(status := Failed, error := "exit status " + Decimal(s.code), exitCode := Some(s.code), finishedAt := Some(now))
    else
      r.(status := Success, exitCode := if s.known then Some(0) else r.exitCode, finishedAt := Some(now))
  }

  function Apply(e: Exec, a: Action): Exec
    requires Enabled(e, a) && |e.result.output| <= MAX_OUTPUT
  {
    match a
    case Begin(now) =>
      e.(pc := PersistStart, result := e.result.(status := Running, startedAt := Some(now)), saved := false)
    case Save(ok) =>
      e.(pc := if e.pc == PersistStart then AnnounceStart else Announce, saved := ok)
    case Emit =>
      if e.pc == AnnounceStart then e.(pc := WriteScript)
      else if e.pc == Announce then e.(pc := if e.session == Unopened then Exited else Unregister)
      else e.(reader := Flushing(e.reader.last), sent := e.sent + [e.reader.chunk])
    case Script(error) =>
      e.(pc := match error case None => OpenSession case Some(m) => Fail(m), fault := error)
    case OpenPty(error) =>
      (match error
       case None => e.(pc := RegisterSession, session := Open)
       case Some(m) => e.(pc := Fail(m), fault := error))
    case Register =>
      e.(pc := CheckContext)
    case Check(cancelled) =>
      if cancelled then e.(pc := Abandon, sawCancel := true) else e.(pc := Pump)
    case CloseAbandoned =>
      e.(pc := Fail(CANCELLED), session := Closed)
    case Read(chunk, last) =>
      e.(result := Append(e.result, chunk), reader := Sending(chunk, last), saved := false)
    case ReadEnd =>
      e.(reader := Drained)
    case Flush(now, after, ok) =>
      var e' := e.(reader := if e.reader.last then Drained else Reading);
      if FlushDue(e.lastFlush, now, e.interval) then e'.(lastFlush := Some(after), saved := ok) else e'
    case WaitReturns(outcome) =>
      e.(waited := Some(outcome))
    case Decide(cancelled, now) =>
      if cancelled then e.(pc := Fail(CANCELLED), sawCancel := true)
      else (match e.waited.value
        case WaitErr(m) => e.(pc := Fail(m))
        case WaitOk(s) => e.(pc := PersistOutcome, result := Outcome(e.result, s, now), saved := false))
    case Finalize(cancelled, now) =>
      e.(pc := PersistFailure,
         result := e.result.(status := Failed, error := if cancelled then CANCELLED else e.pc.message, finishedAt := Some(now)),
         sawCancel := e.sawCancel || cancelled, saved := false)
    case SaveOutcome(error) =>
      (match error
       case None => e.(pc := Announce, saved := true)
       case Some(m) => e.(pc := PersistAgain,
                          result := e.result.(status := Failed, error := "persist result: " + m),
                          persistError := error, saved := false))
    case Deregister =>
      e.(pc := CloseSession)
    case Close =>
      e.(pc := Exited, session := Closed)
  }

  /** The event an action broadcasts. */
  function EventsOf(e: Exec, a: Action): seq<Event>
    requires Enabled(e, a)
  {
    if a != Emit then []
    else if e.pc == Pump then [Output(e.result.serverId, e.reader.chunk)]
    else [StatusOf(e.result)]
  }

  /** The row an action successfully writes to the store. */
  function SavedBy(e: Exec, a: Action): Option<RunResult>
    requires Enabled(e, a)
  {
    match a
    case Save(ok) => if ok then Some(e.result) else None
    case Flush(now, _, ok) => if ok && FlushDue(e.lastFlush, now, e.interval) then Some(e.result) else None
    case SaveOutcome(error) => if error.None? then Some(e.result) else None
    case _ => None
  }

  // ---- What every execution keeps ----

  predicate Announced(e: Exec) {
    !(e.pc.Created? || e.pc.PersistStart? || e.pc.AnnounceStart?)
  }

  predicate TerminalSent(e: Exec) {
    (e.pc.Unregister? || e.pc.CloseSession? || e.pc.Exited?)
  }

  /** Every attempt to persist the final result is over. */
  predicate Settled(e: Exec) {
    e.pc.Announce? || TerminalSent(e)
  }

  /** The action is the last attempt to persist the final result, and it fails. */
  predicate Loses(e: Exec, a: Action) {
    a == Save(false) && (e.pc.PersistFailure? || e.pc.PersistAgain?)
  }

  /** The result has its final value. */
  predicate Finalized(e: Exec) {
    || e.pc.PersistFailure? || e.pc.PersistOutcome? || e.pc.PersistAgain? || e.pc.Announce?
    || e.pc.Unregister? || e.pc.CloseSession? || e.pc.Exited?
  }

  function RunningEvent(server: ServerId): Event {
    Status(server, Running, None, false, "", None)
  }

  function Outputs(server: ServerId, chunks: seq<seq<Byte>>): seq<Event> {
    seq(|chunks|, i requires 0 <= i < |chunks| => Output(server, chunks[i]))
  }

  /** The event grammar: running, then outputs, then one terminal status and nothing more. */
  function TraceOf(e: Exec): seq<Event> {
    (if Announced(e) then [RunningEvent(e.result.serverId)] else [])
    + Outputs(e.result.serverId, e.sent)
    + (if TerminalSent(e) then [StatusOf(e.result)] else [])
  }

  function Received(e: Exec): seq<seq<Byte>> {
    if e.pc == Pump && e.reader.Sending? then e.sent + [e.reader.chunk] else e.sent
  }

  /**
   * The outcome an execution must end with, told from what its environment did: a cancel it saw
   * outranks everything, then the error that stopped it, then the exit status, where an unknown
   * status is a success without a code and only a known non-zero one is a failure.
   */
  function Verdict(e: Exec): (ResultStatus, string, Option<int>) {
    if e.sawCancel then (Failed, CANCELLED, None)
    else if e.fault.Some? then (Failed, e.fault.value, None)
    else match e.waited
      case None => (Failed, "", None)
      case Some(WaitErr(m)) => (Failed, m, None)
      case Some(WaitOk(s)) =>
        var code := if s.known then Some(s.code) else None;
        if e.persistError.Some? then (Failed, "persist result: " + e.persistError.value, code)
        else if s.known && s.code != 0 then (Failed, "exit status " + Decimal(s.code), code)
        else (Success, "", code)
  }

  /** A finalized result is the verdict, with both timestamps set. */
  ghost predicate Truthful(e: Exec) {
    && (e.result.status, e.result.error, e.result.exitCode) == Verdict(e)
    && e.result.finishedAt.Some? && e.result.startedAt.Some?
  }

  /** Which fields can be set at which point of the execution. */
  ghost predicate Control(e: Exec) {
    && (e.pc.Created? ==> e == Start(e.result.runId, e.result.serverId, e.interval))
    && (!Finalized(e) ==>
          && e.result.status == (if e.pc.Created? then Pending else Running)
          && e.result.exitCode == None && e.result.error == "" && e.result.finishedAt == None
          && e.persistError == None
          && (!e.pc.Created? ==> e.result.startedAt.Some?))
    && (e.pc.PersistFailure? || e.pc.PersistOutcome? || e.pc.PersistAgain? ==> !e.saved)
    && (BeforePump(e) ==>
          && e.sent == [] && !e.result.truncated && !e.sawCancel && e.fault == None
          && e.waited == None && e.reader == Reading && e.lastFlush == None)
    && (BeforeSession(e) ==> e.session == Unopened)
    && (AfterSession(e) ==> e.session != Unopened)
    && (e.pc.Exited? ==> e.session != Open)
    && (e.pc.Abandon? ==> e.sawCancel && e.sent == [] && e.reader == Reading)
    && (e.pc.Pump? || e.pc.PersistOutcome? || e.pc.PersistAgain? ==> !e.sawCancel)
    && (e.pc.PersistOutcome? || e.pc.PersistFailure? ==> e.persistError == None)
    && (e.pc.PersistAgain? ==> e.persistError.Some?)
    && (e.pc.Pump? || e.pc.PersistOutcome? ==> e.fault == None)
    && (e.pc.PersistOutcome? ==> e.waited.Some? && e.waited.value.WaitOk?)
    && (e.pc.Fail? ==>
          if e.sawCancel then e.pc.message == CANCELLED
          else if e.fault.Some? then e.pc.message == e.fault.value
          else e.waited == Some(WaitErr(e.pc.message)))
  }

  predicate BeforeSession(e: Exec) {
    e.pc.Created? || e.pc.PersistStart? || e.pc.AnnounceStart? || e.pc.WriteScript? || e.pc.OpenSession?
  }

  predicate BeforePump(e: Exec) {
    BeforeSession(e) || e.pc.RegisterSession? || e.pc.CheckContext?
  }

  predicate AfterSession(e: Exec) {
    || e.pc.RegisterSession? || e.pc.CheckContext? || e.pc.Abandon? || e.pc.Pump? || e.pc.PersistOutcome? || e.pc.PersistAgain?
    || e.pc.Unregister? || e.pc.CloseSession?
  }

  /** Execution invariant; `trace` is everything it has broadcast so far. */
  ghost predicate ExecInv(e: Exec, trace: seq<Event>) {
    && trace == TraceOf(e)
    && Holds(e.result, Flatten(Received(e)))
    && Control(e)
    && (Finalized(e) ==> Truthful(e))
  }

  /** The final result is lost exactly when the last attempt to persist it failed. */
  lemma SettledStep(e: Exec, a: Action)
    requires Control(e) && Enabled(e, a) && |e.result.output| <= MAX_OUTPUT
    ensures Settled(Apply(e, a)) && !Apply(e, a).saved <==> (Settled(e) && !e.saved) || Loses(e, a)
    ensures Settled(e) ==> SavedBy(e, a) == None
    ensures SavedBy(e, a).Some? && Terminal(e.result.status) ==> Settled(Apply(e, a)) && Apply(e, a).saved
    ensures SavedBy(e, a) == None && Terminal(e.result.status) && e.saved ==> Apply(e, a).saved
  {
  }

  /** Being in rs.sessions, as a function of where the execution is. */
  predicate Registered(e: Exec) {
    e.session != Unopened && !(e.pc.RegisterSession? || e.pc.CloseSession? || e.pc.Exited?)
  }

  lemma StartInv(run: RunId, server: ServerId, interval: int)
    ensures ExecInv(Start(run, server, interval), [])
  {
  }

  predicate Opening(a: Action) {
    a.Begin? || a.Save? || a.Script? || a.OpenPty? || a.Register? || a.Check? || a.CloseAbandoned?
  }

  lemma ControlOpening(e: Exec, a: Action)
    requires Control(e) && Enabled(e, a) && |e.result.output| <= MAX_OUTPUT && Opening(a)
    ensures Control(Apply(e, a))
  {
  }

  lemma ControlStep(e: Exec, a: Action)
    requires Control(e) && Enabled(e, a) && |e.result.output| <= MAX_OUTPUT
    ensures Control(Apply(e, a))
  {
    if Opening(a) {
      ControlOpening(e, a);
    }
  }

  lemma QuietTrace(e: Exec, a: Action)
    requires Control(e) && Enabled(e, a) && |e.result.output| <= MAX_OUTPUT && !a.Emit?
    ensures TraceOf(Apply(e, a)) == TraceOf(e)
  {
    var e' := Apply(e, a);
    assert Announced(e') == Announced(e) && TerminalSent(e') == TerminalSent(e);
    assert TerminalSent(e) ==> e'.result == e.result;
  }

  lemma EmitTrace(e: Exec)
    requires Control(e) && Enabled(e, Emit) && |e.result.output| <= MAX_OUTPUT
    ensures TraceOf(Apply(e, Emit)) == TraceOf(e) + EventsOf(e, Emit)
  {
    var server, e' := e.result.serverId, Apply(e, Emit);
    if e.pc.Pump? {
      assert Outputs(server, e'.sent) == Outputs(server, e.sent) + EventsOf(e, Emit);
    } else if e.pc.AnnounceStart? {
      assert TraceOf(e') == [RunningEvent(server)];
    }
  }

  lemma TraceStep(e: Exec, a: Action)
    requires Control(e) && Enabled(e, a) && |e.result.output| <= MAX_OUTPUT
    ensures TraceOf(Apply(e, a)) == TraceOf(e) + EventsOf(e, a)
  {
    if a.Emit? {
      EmitTrace(e);
    } else {
      QuietTrace(e, a);
      assert TraceOf(e) + [] == TraceOf(e);
    }
  }

  /** Only a read changes the stream, and only by the chunk read. */
  lemma ReceivedStep(e: Exec, a: Action)
    requires Control(e) && Enabled(e, a) && |e.result.output| <= MAX_OUTPUT
    ensures Received(Apply(e, a)) == Received(e) + if a.Read? then [a.chunk] else []
    ensures !a.Read? ==> Apply(e, a).result.output == e.result.output && Apply(e, a).result.truncated == e.result.truncated
  {
  }

  lemma BufferStep(e: Exec, a: Action)
    requires Control(e) && Enabled(e, a) && Holds(e.result, Flatten(Received(e)))
    ensures Holds(Apply(e, a).result, Flatten(Received(Apply(e, a))))
  {
    ReceivedStep(e, a);
    if a.Read? {
      var stream := Flatten(Received(e));
      FlattenSnoc(Received(e), a.chunk);
      AppendHolds(e.result, stream, a.chunk);
    } else {
      assert Received(e) + [] == Received(e);
    }
  }

  /** The actions that decide a result make it the verdict ... */
  lemma TruthDecided(e: Exec, a: Action)
    requires Control(e) && Enabled(e, a) && |e.result.output| <= MAX_OUTPUT
    requires Finalized(e) ==> Truthful(e)
    requires a.Decide? || a.Finalize? || a.SaveOutcome?
    ensures Finalized(Apply(e, a)) ==> Truthful(Apply(e, a))
  {
  }

  /** ... and the others leave it so. */
  lemma TruthStep(e: Exec, a: Action)
    requires Control(e) && Enabled(e, a) && |e.result.output| <= MAX_OUTPUT
    requires Finalized(e) ==> Truthful(e)
    ensures Finalized(Apply(e, a)) ==> Truthful(Apply(e, a))
  {
    if a.Decide? || a.Finalize? || a.SaveOutcome? {
      TruthDecided(e, a);
    }
  }

  /** Every action of the execution keeps its invariant. */
  lemma StepInv(e: Exec, a: Action, trace: seq<Event>)
    requires ExecInv(e, trace) && Enabled(e, a)
    ensures ExecInv(Apply(e, a), trace + EventsOf(e, a))
  {
    ControlStep(e, a);
    TraceStep(e, a);
    BufferStep(e, a);
    TruthStep(e, a);
  }

  /** Closing the session from outside, as a cancel sweep does, disturbs nothing else. */
  lemma ClosedInv(e: Exec, trace: seq<Event>)
    requires ExecInv(e, trace) && e.session != Unopened
    ensures ExecInv(e.(session := Closed), trace)
  {
  }

  /** A finished execution has said exactly this, and its result is the verdict on what happened to it. */
  lemma FinishedExec(e: Exec, trace: seq<Event>)
    requires ExecInv(e, trace) && e.pc == Exited
    ensures trace == [RunningEvent(e.result.serverId)] + Outputs(e.result.serverId, e.sent) + [StatusOf(e.result)]
    ensures Holds(e.result, Flatten(e.sent))
    ensures (e.result.status, e.result.error, e.result.exitCode) == Verdict(e)
    ensures e.result.exitCode.Some? && e.result.exitCode.value != 0 && e.persistError.None? ==>
      e.result.status == Failed && ExitText(e.result.error, e.result.exitCode.value)
  {
    if e.result.exitCode.Some? {
      DecimalSpells(e.result.exitCode.value);
    }
  }

  /** The execution's row key never changes, and a finished execution writes no row. */
  lemma SavesOwnRow(e: Exec, a: Action)
    requires Enabled(e, a) && |e.result.output| <= MAX_OUTPUT
    ensures e.pc != Exited
    ensures Apply(e, a).result.runId == e.result.runId && Apply(e, a).result.serverId == e.result.serverId
    ensures SavedBy(e, a).Some? ==> SavedBy(e, a).value == e.result && Apply(e, a).saved && Apply(e, a).result == e.result
    ensures SavedBy(e, a).None? && Apply(e, a).saved ==> e.saved && Apply(e, a).result == e.result
  {
  }
}
