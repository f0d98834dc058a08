/** The entities of a Batch Run: the run, its per-Server results and the streamed events. */
module BatchTypes {
  import opened Prelude

  // IDs are only ever compared for equality, so numbers stand for the UUID strings.
  type RunId = nat
  type ServerId = nat
  type Time = int
  type Byte = bv8

  datatype BatchRunStatus = RunRunning | RunDone

  datatype BatchRun = BatchRun(id: RunId, script: string, status: BatchRunStatus, createdAt: Time)

  datatype ResultStatus = Pending | Running | Success | Failed

  datatype RunResult = RunResult(
    runId: RunId,
    serverId: ServerId,
    status: ResultStatus,
    exitCode: Option<int>,
    output: seq<Byte>,
    truncated: bool,
    error: string,
    startedAt: Option<Time>,
    finishedAt: Option<Time>)

  datatype Event =
    | Output(server: ServerId, data: seq<Byte>)
    | Status(server: ServerId, status: ResultStatus, exitCode: Option<int>, truncated: bool,
             error: string, finishedAt: Option<Time>)

  const CANCELLED := "cancelled"
  const INTERRUPTED := "interrupted by restart"

  predicate Terminal(status: ResultStatus) {
    status == Success || status == Failed
  }

  /** A freshly dispatched result: pending, with nothing recorded yet. */
  function PendingResult(run: RunId, server: ServerId): RunResult {
    RunResult(run, server, Pending, None, [], false, "", None, None)
  }

  /** The status event broadcast for a result. */
  function StatusOf(r: RunResult): Event {
    Status(r.serverId, r.status, r.exitCode, r.truncated, r.error, r.finishedAt)
  }
}
