# Belochka: a verified model of its stateful core

Belochka is a server monitor written in Go with a React front end. This project models the parts of it
that are hard to get right by reading, and proves what they promise:

- **Batch runs** (`Batch*.dfy`): one script sent to many servers. Dispatches, one execution per server, the
  cancel sweep, the completion waiter, subscribers, crashes and restarts form one transition system over the
  in-memory state and the two store tables (`BatchProtocol`). A sequence of enabled steps is an interleaving
  of goroutines at the grain of one critical section, one store statement or one local action. `BatchInvariant`
  proves an inductive invariant, `BatchTheorems` what follows from it in every reachable state,
  `BatchRecovery` what a restart makes of the store, `BatchRecords` what the store says about finished work
  across crashes, `BatchCancel` what a cancel does to a run's results, `BatchOvertake` when a stream can end too early,
  `BatchClient` that the browser's reducer simulates the service, `BatchStreams` what of that a browser gets that sees
  one channel only, `BatchForeign` when another run's events get into that channel. One execution is a machine of atomic actions (`BatchExecution`); `BatchRunner` is the same code as
  one sequential class whose ghost trace is proved to be a run of that machine, so both views share one
  specification. `BatchStore`, `BatchFanout` and `BatchSessions` hold the tables, the channels and the session
  table, as values and as classes updated in place; `BatchService` is the service over them, each method run
  without interruption.
- **Crontabs** (`CronText`, `Crontab`, `CronService`): the parser, the printer and the editor by entry index
  over unbounded text, the service that composes them, and the reducer that keeps the browser's copy.
- **Logins** (`AuthRateLimit`, `AuthSessions`): the per-address rate limiter and the session table, each against
  a history of what happened.
- **Reconnection, thresholds, log purge, CPU counters** (`Reconnect`, `Thresholds`, `Monitor`; the log in
  `LogStamp`, `LogWindow` and `LogPurge`: a line's stamp, the window over lines, the file and the logger).

Functions are the specification; methods and classes follow the loops and updates of the source and are proved
to compute those functions; lemmas say what the functions mean.

## What the proofs found

Where the code does something else than its comments or the obvious reading say, the model follows the code, and
the proofs state the exact condition.

- `waitForCompletion` closes every attached channel, not only those of its own run. From its store statement on the
  next run may start, and streams of that run then end while it is running. A closing sweep does that exactly when
  another run is current, unfinished and subscribed to (`BatchOvertake.ClosesRunningStreamIff`), and a waiter that
  has marked its run but not closed yet can still come to it if and only if the process is not stuck, that is,
  whenever a next run can start at all (`BatchOvertake.EndsEarlyIff`).
- A subscriber is promised the events of its run, but events carry no run ID and every attached channel is offered all
  of them. Until a run is marked done its channels carry its events only (`BatchStreams.StreamIsOwn`), and a channel that
  hears them all lets the browser's fold simulate the service (`BatchStreams.ChannelSimulates`). From then on, while the
  channel is still attached, another run's status can arrive on it if and only if the process is not stuck
  (`BatchForeign.ForeignIff`). A browser that folds it shows a server as running again whose result is final, until it
  syncs (`BatchForeign.ShownRunningAgain`; reached in `ForeignHappens`).
- When the statement that marks a run done fails, the error is only logged: the store refuses every further
  dispatch until the process restarts. A dispatch past the guard gets through exactly when the statement succeeds
  (`BatchTheorems.MarkAdmits`, `StuckUntilRestart`); a restart that cannot mark a run cut short leaves the same state
  (`FailedRecoverySticks`).
- A result whose last persist fails stays pending or running in the store although its run gets marked done, and
  no restart repairs it, because recovery looks only at runs still marked running (`BatchRecords.LostResultHappens`,
  `DoneUntilDispatch`). After a crash and a full recovery a result is terminal if and only if its run was cut short
  or its last persist was not lost (`BatchRecords.CrashRecovery`).
- Rewriting a crontab entry as disabled always keeps it; rewriting it as enabled keeps it if and only if its minute field
  starts neither a comment nor an assignment. A leading blank hides such a minute from the parser, so an entry of the list can be lost by editing or toggling
  it (`Crontab.LostByRewriting`; exact conditions in `PrintParse`, `RebuildParsed`, `ReplaceMeansReplace`,
  `ToggleCommutes`).
- "Ten failures per thirty minutes" is not what the login counter enforces. A successful login clears it, and the clean-up
  drops every counter that was never locked, fresh or not (and never frees an expired lockout). Whatever mixture of
  those falls into a window, the number of wrong passwords evaluated in it is always within a bound if and only if the
  bound is at least ten plus nine for each of them; so ten holds always exactly when there is none
  (`AuthRateLimit.WindowExact`, `OneResetForgets`, `CleanupDropsUnlocked`).
- Five reconnection attempts sleep at most 1 + 2 + 4 + 8 = 15 seconds; the comment in the source says about 31
  (`Reconnect.Reconnector.Run`).
- The purge's fast path equals the full filter exactly when nothing behind an in-window first line is stale, which
  time order guarantees (`LogPurge.PurgeIsFilter`, `LogPurge.FastPathRefines`). The opening purge reads the clock
  before the hourly throttle starts, so after a write a line may be older than the retention and an hour: by the
  time between the two readings, less one tick, and no tighter bound holds (`LogPurge.WindowExact`).
- The kernel's iowait counter may step back. That does no harm as long as idle grew by at least as much; otherwise
  the wrapping subtraction leaves the range. The usage is the true busy share between 0 and 100 if and only if no
  time has passed, or the busy time is not negative and idle and iowait together have not gone back
  (`Monitor.UsageIsBusyShare`; 200 percent in `Monitor.BackwardsCounter`).

## Model

| member | source | states |
|---|---|---|
| BatchTheorems.Serialized | internal/batchrun/service.go:179-223 | In every interleaving, a run with unfinished executions is the single store row, marked running, and the current run; there is at most one such run, and the store refuses every dispatch already past the guard |
| BatchTheorems.StoreKeyed | internal/store/batchrun.go:36-77 | The stored results are exactly one row per target server of the stored run, in dispatch order, so no late upsert of an older run is among them |
| BatchTheorems.SavedIsStored | internal/batchrun/service.go:517-523 | Every result whose last persist succeeded equals its stored row, while its run is the stored one |
| BatchTheorems.NoStrandedSession | internal/batchrun/service.go:263-280 | After a cancel sweep, an open session belongs to an execution before its ctx check or inside a close of its own; when a run is marked done all its sessions are closed and none is registered |
| BatchTheorems.SweptCheckCloses | internal/batchrun/service.go:374-378 | In a swept run the ctx check can only lead to the close, and the close to the failure as cancelled |
| BatchTheorems.EventGrammar | internal/batchrun/service.go:342-447 | A finished execution has broadcast one running status, its chunks, one terminal status and nothing else; its result is the verdict on what happened to it and holds the capped output |
| BatchRecords.CrashRecovery | internal/batchrun/service.go:122-174 | From the store left by a crash at any point, of a recovery too, a restart over a working store leaves the run done and finished results unchanged; a result is terminal if and only if its run was cut short or its last persist was not lost; the next dispatch passes guard and store |
| BatchRecords.FaultlessRecovery | internal/batchrun/service.go:122-174 | If no last persist ever failed, every result is terminal after such a restart |
| BatchRecords.SavedMeansTerminal | internal/batchrun/service.go:517-523 | The row of a finished execution is terminal if and only if its last persist succeeded |
| BatchRecords.StepKeepsRecords | internal/batchrun/service.go:140-447 | Every step keeps: in a run marked done the unfinished rows are exactly those of lost persists |
| BatchRecords.DoneUntilDispatch | internal/batchrun/service.go:155-157 | No sequence of steps without a store replacement, restarts included, touches the rows of a run that is not running |
| BatchRecords.LostResultHappens | internal/batchrun/service.go:155-157 | A reachable state has an unfinished row in a run marked done that no restart repairs |
| BatchTheorems.SubscriberStream | internal/batchrun/service.go:306-338 | In every reachable state each channel delivered, in order, the broadcasts since it attached minus exactly those that met a full buffer; attached channels are open, and a run's completed waiter has closed the channels attached before it |
| BatchTheorems.FailedMarkSticks | internal/batchrun/service.go:229-236 | A completion leaves the run marked running with nobody left to mark it done if and only if its store statement fails |
| BatchTheorems.MarkAdmits | internal/batchrun/service.go:229-236 | A dispatch past the guard gets through the store after a completion if and only if that statement succeeded |
| BatchTheorems.FailedRecoverySticks | internal/batchrun/service.go:140-174 | A restart leaves that state if and only if it finds a run cut short and does not mark it done |
| BatchTheorems.StuckUntilRestart | internal/batchrun/service.go:229-236 | From such a state no sequence of steps short of a restart lets any dispatch past the store |
| BatchTheorems.RefusesDispatch | internal/store/batchrun.go:43-52 | While the stored run is marked running the transaction refuses every dispatch |
| BatchInvariant.StepKeepsInv | internal/batchrun/service.go:179-447 | Every step of the protocol keeps the inductive invariant |
| BatchInvariant.RunKeepsInv | internal/batchrun/service.go:95-137 | Every interleaving from the empty store keeps it |
| BatchInvariant.ActStep | internal/batchrun/service.go:342-447 | An action of one execution, with its persist and broadcast, keeps the invariant of all runs, the store and the fan-out |
| BatchInvariant.ReplaceStep | internal/store/batchrun.go:36-77 | The replacing transaction keeps the invariant although the guard was released before it |
| BatchInvariant.SweepStep | internal/batchrun/service.go:272-279 | The sweep keeps the invariant and leaves only unswept sessions open |
| BatchInvariant.MarkStep | internal/batchrun/service.go:229-233 | Marking a run done, or failing to, keeps the invariant |
| BatchOvertake.StreamsCanEndEarly | internal/batchrun/service.go:238-243 | A reachable state exists in which a completion waiter is about to end the stream of a run that is still running |
| BatchOvertake.EndsEarlyIff | internal/batchrun/service.go:229-244 | A waiter between its store statement and its closing sweep can still end the stream of a running run if and only if the process is not stuck |
| BatchStreams.StreamIsOwn | internal/batchrun/service.go:304-338 | In every reachable state, until its run is marked done everything a channel has been offered is about that run |
| BatchStreams.StepKeepsOwnStreams | internal/batchrun/service.go:304-338 | Every step keeps that, because only the one waiting run broadcasts |
| BatchForeign.ForeignIff | internal/batchrun/service.go:304-338 | Once its run is marked done, another run's running status of any server can still arrive on an attached channel if and only if the process is not stuck |
| BatchForeign.FinishesAll | internal/batchrun/service.go:342-447 | Whatever run is under way beside an ended one can be driven to where all its executions have exited, the streams still attached |
| BatchForeign.StuckStaysSilent | internal/batchrun/service.go:329-338 | Until a stuck process restarts, no channel gets anything more |
| BatchForeign.ShownRunningAgain | web/src/hooks/useBatchRun.ts:152-177 | From every such state of a process that is not stuck, a continuation makes the browser's fold of the channel show any server of the run as running although its result is final |
| BatchForeign.ForeignHappens | internal/batchrun/service.go:304-338 | Such a state is reached, on a channel attached before its run was marked done |
| BatchCancel.CancelEndsResults | internal/batchrun/service.go:260-280 | Once a run's context is cancelled, however the process goes on, an execution that finishes ends as failed with the cancel as its error if its result was not decided before, and has seen the cancel exactly then |
| BatchCancel.OnlyCancelCancels | internal/batchrun/service.go:260-280 | In every reachable state only an execution of a cancelled run has seen its context cancelled |
| BatchCancel.StepSignalled | internal/batchrun/service.go:260-280 | No step of the process changes whether a signalled execution ends by the cancel |
| BatchOvertake.ClosesRunningStreamIff | internal/batchrun/service.go:238-243 | A closing sweep ends a running run's stream if and only if another run is current, unfinished and subscribed to |
| BatchExecution.StepInv | internal/batchrun/service.go:342-447 | Every action of an execution keeps: the trace is the grammar's, the buffer holds the capped stream, a finalized result is the verdict |
| BatchExecution.FinishedExec | internal/batchrun/service.go:422-447 | What a finished execution said and recorded: a cancel seen outranks everything, then the stopping error, then the exit status, a success has code 0 exactly when the status was known, and a non-zero code is named in the error |
| BatchExecution.ClosedInv | internal/batchrun/service.go:272-279 | Closing the session from outside disturbs nothing else of the execution |
| BatchExecution.SavesOwnRow | internal/batchrun/service.go:517-523 | An execution persists only its own row with its current result, and nothing once it has exited |
| BatchOutput.AppendHolds | internal/batchrun/service.go:487-498 | For every chunking the buffer is the first 65536 bytes of the stream and the flag says whether more came |
| BatchRunner.Runner.RunOne | internal/batchrun/service.go:342-447 | In every environment the sequential code is a run of the machine, ends with its session closed, has said exactly one running status, its output and one terminal status, and records the ending, in plain words and times, that its environment calls for; the row is the final result if the store took it |
| BatchRunner.Runner.ReadLoop | internal/batchrun/service.go:387-406 | All data is received in order; the chunks flushed are exactly the first and then each that comes an interval or more after the last flush, at most 1 + elapsed / interval of them; the stored row has the output up to the last flush the store took, so with a healthy store it lacks only what came less than an interval after a flush |
| BatchRunner.Runner.Deliver | internal/batchrun/service.go:393-401 | One turn appends, broadcasts, and flushes exactly when this is the first chunk or an interval has passed since the last flush; a flush the store takes stores all output so far |
| BatchRunner.Runner.AppendOutput | internal/batchrun/service.go:487-498 | The in-place append is the capped append |
| BatchRunner.Runner.FinalizeFailed | internal/batchrun/service.go:502-512 | A failure is persisted and announced; a cancel seen takes precedence over the message |
| BatchRunner.Runner.Settle | internal/batchrun/service.go:414-447 | After process end and drained output: cancel first, then wait error, then exit status, with the text of the code; a failed persist is surfaced |
| BatchRunner.VerdictEnds | internal/batchrun/service.go:342-447 | The verdict is that ending for every environment: "cancelled", the stopping error, "persist result: " with the error and the code kept, "exit status " with the numeral, or success |
| BatchExecution.DecimalSpells | internal/batchrun/service.go:428 | The text of an exit status reads back, in base ten, as the status: no leading zero, a minus sign for a negative one |
| BatchRunner.HealthyRow | internal/batchrun/service.go:379-400 | When every flush is taken, the stored output lags the received output by less than the flush interval |
| BatchRunner.RunInvariant | internal/batchrun/service.go:342-447 | Every point of every run of the machine has the execution invariant |
| BatchService.Service.Dispatch | internal/batchrun/service.go:179-223 | Refused while a run is in progress by memory or store, and then changes nothing; otherwise the store holds exactly the new run, it is current, and the caller gets copies of its pending rows |
| BatchService.Service.NewRun | internal/batchrun/service.go:466-482 | One pending result per server, in order |
| BatchService.Service.Complete | internal/batchrun/service.go:229-244 | Marks the run in the store if it can, admits the next dispatch, closes and forgets every attached channel, keeping what it buffered |
| BatchService.Service.Cancel | internal/batchrun/service.go:263-280 | Touches nothing without a run in progress; else cancels the context and closes every registered session |
| BatchService.Service.Subscribe | internal/batchrun/service.go:306-325 | Attaches a fresh channel exactly when the ID is the current run's, done or not |
| BatchService.Service.Current | internal/batchrun/service.go:248-258 | The newest run with its rows, or not-found |
| BatchService.DispatchedThenRead | internal/batchrun/service.go:179-258 | The answer of a dispatch is what reading right after it gives; the next dispatch is refused until the run is marked done and accepted then |
| BatchService.DispatchUninterrupted | internal/batchrun/service.go:179-223 | A dispatch nothing interrupts is the protocol's guard, transaction and publication in a row |
| BatchService.CancelUninterrupted | internal/batchrun/service.go:263-280 | A cancel of the run in progress can always be carried through, and then every registered session is closed and nothing else has changed in the executions |
| BatchService.CompleteUninterrupted | internal/batchrun/service.go:229-244 | A completion nothing interrupts marks the run in the store if it can, admits the next dispatch and closes every attached channel |
| BatchService.SubscribeUninterrupted | internal/batchrun/service.go:306-325 | A subscription nothing interrupts attaches an open empty channel to the current run and leaves the other channels alone |
| BatchFanout.BroadcastInv | internal/batchrun/service.go:329-338 | A broadcast keeps every channel equal to what it was offered minus what met a full buffer |
| BatchFanout.CloseAllInv | internal/batchrun/service.go:238-243 | Closing all attached channels keeps their contents and closes none twice |
| BatchFanout.NothingDropped | internal/batchrun/service.go:329-338 | A channel whose buffer was never full lost nothing |
| BatchFanout.FirstEventsArrive | internal/batchrun/service.go:314 | The first 256 events after attaching always arrive |
| BatchFanout.Subscribers.Broadcast | internal/batchrun/service.go:329-338 | Every attached open channel is offered the event once, without blocking, and no other is touched |
| BatchFanout.Subscribers.CloseAll | internal/batchrun/service.go:238-243 | Every attached channel is closed exactly once and detached |
| BatchFanout.Subscribers.Subscribe | internal/batchrun/service.go:314-318 | Attaches one fresh empty channel |
| BatchFanout.Subscribers.Unsubscribe | internal/batchrun/service.go:319-324 | Detaches one channel without closing it |
| BatchSessions.RunSessions.Cancel | internal/batchrun/service.go:272-279 | Signals first, then closes every registered session and changes no registration |
| BatchProtocol.DedupeStrings | internal/api/batchrun_handler.go:209-220 | The loop keeps the first occurrence of every ID in order |
| BatchProtocol.DedupeDistinct | internal/api/batchrun_handler.go:209-220 | The targets are distinct and exactly the requested servers |
| BatchRecovery.FinalizeStaleRun | internal/batchrun/service.go:140-174 | Statement by statement, with any of them failing, the loop computes the recovery function |
| BatchRecovery.RecoverRepairs | internal/batchrun/service.go:140-174 | However many statements succeed, recovery is row-wise: written stale rows are interrupted, all others untouched, and the store stays sound |
| BatchRecovery.RecoveryCompletes | internal/batchrun/service.go:118-137 | When all succeed: no run running, finished rows unchanged, unfinished rows failed as interrupted with their output kept if the run was still marked running and as they were if not, next dispatch accepted |
| BatchStore.UpsertInPlace | internal/store/batchrun.go:136-155 | An upsert with an existing key changes that row only |
| BatchStore.UpsertAllDistinct | internal/store/batchrun.go:65-70 | Inserting distinct rows one by one into the cleared table stores them in order |
| BatchStore.LatestIsNewest | internal/store/batchrun.go:81-96 | The ordered query finds the row with the largest creation time, and among those the largest rowid |
| BatchStore.BatchTables.GetBatchRun | internal/store/batchrun.go:81-96 | Returns that row or not-found |
| BatchStore.BatchTables.ListBatchRunResults | internal/store/batchrun.go:99-124 | Returns exactly the run's rows in rowid order |
| BatchStore.ListForPicks | internal/store/batchrun.go:99-124 | The listed rows are those at the increasing places of the table that hold the run's rows, all of them |
| BatchStore.BatchTables.UpdateBatchRunResult | internal/store/batchrun.go:129-155 | Upserts in place or at the end; a failing store changes nothing |
| BatchStore.BatchTables.ReplaceBatchRun | internal/store/batchrun.go:36-77 | All or nothing, whichever statement fails: refused while the latest run is running, rolled back on a failure, else both tables hold just the new run |
| BatchStore.BatchTables.FillTables | internal/store/batchrun.go:55-75 | The statements after the check succeed together and then hold just the new run |
| BatchStore.BatchTables.SetBatchRunDone | internal/store/batchrun.go:159-166 | Marks the runs with that ID done, no other, and changes no result |
| BatchClient.ClientSimulates | web/src/hooks/useBatchRun.ts:135-177 | In every reachable state, folding the broadcasts made for a run, whoever receives them, through the reducer gives each server the view of its execution; for a finished one the service's status, code, error, flag and finish time, with the service's output the first 64 KiB of the client's |
| BatchStreams.ChannelSimulates | web/src/hooks/useBatchRun.ts:135-177 | The same for what one channel has delivered and holds, without any run ID, when it was offered exactly its run's events and had room for each |
| BatchStreams.AttachedHearsAllIff | internal/batchrun/service.go:304-338 | An attached channel hears exactly its run's events if and only if it was attached before the first of them, none of another run came since, and its buffer was never full |
| BatchStreams.EndedHearsAll | internal/batchrun/service.go:238-243 | A channel that heard them all and is closed or detached after its run was marked done keeps exactly that |
| BatchClient.FoldProjects | web/src/hooks/useBatchRun.ts:152-177 | However the servers' events interleave, each entry depends on its own events only |
| BatchClient.FoldMeans | web/src/hooks/useBatchRun.ts:152-177 | For any events at all, each field of an entry is the last value its own server's events gave for it, an omitted one giving none, and the truncated flag once set stays set |
| BatchClient.ViewFolds | web/src/hooks/useBatchRun.ts:152-177 | Folding an execution's trace gives the client's view of it |
| BatchClient.StreamMeetsSnapshot | web/src/hooks/useBatchRun.ts:179-180 | A snapshot installed by a sync differs from the folded stream at most in output beyond the cap |
| Crontab.ParseCrontab | internal/cron/cron.go:32-74 | The loop computes the classification of the cleaned lines, and that is what each line means: columns by blanks, tabs and the like, the marker, comments, assignments, and what is ignored |
| Crontab.ClassifyMeans | internal/cron/cron.go:32-91 | Behind the marker six words or more are a disabled entry, else a passthrough; comments and assignments pass through; any other line is an entry with six words or more and is ignored with fewer; the words are minute, hour, day of month, month, day of week and the command |
| CronText.FieldsSpaced | internal/cron/cron.go:78 | The fields of a line are its words, whatever separators stand between and around them |
| Crontab.LinesOfPiece | internal/cron/cron.go:38-42 | Between newlines, a line is the text without the carriage returns at its end, and a blank one does not count |
| Crontab.IsEnvVarLoop | internal/cron/cron.go:159-171 | The loop decides: a non-empty name of letters, digits and underscores, then an equals sign |
| Crontab.ReplaceCronEntry | internal/cron/cron.go:113-141 | The loop computes the edit of the i-th entry line; the text is the edited lines, none blank, each ended by a newline, and empty when no line is left |
| Crontab.RenderedFile | internal/cron/cron.go:137-140 | For an entry printed on one line, splitting what is written gives back the edited lines and ends with a newline |
| Crontab.EntryTest | internal/cron/cron.go:145-156 | The editor's test of a line agrees with the parser's classification |
| Crontab.EditorMatchesParser | internal/cron/cron.go:145-156 | The lines the editor counts are the raw lines of the parsed entries, in order |
| Crontab.PrintParse | internal/cron/cron.go:94-107 | A printed entry parses back to itself if and only if it is well-formed and, when enabled, its minute starts neither a comment nor an assignment |
| Crontab.PrintsColumns | internal/cron/cron.go:94-107 | A printed line is the five fields and the command, single-spaced, behind the marker when disabled |
| Crontab.RebuildParsed | internal/cron/cron.go:77-107 | Rewriting a parsed entry with either flag restores its fields exactly under that minute condition |
| Crontab.EnvVarIsMinute | internal/cron/cron.go:159-171 | Only the minute can make a printed line an assignment |
| Crontab.LostByRewriting | internal/cron/cron.go:44-70 | The whole failing family: with a leading blank the line is an entry; rewritten it is a passthrough, or another, disabled entry when the minute is the marker's own word and enough fields follow |
| Crontab.DeleteMeansDelete | internal/cron/cron.go:113-141 | For every crontab and index in range, re-parsing after a delete gives the entries without that one and the same passthroughs |
| Crontab.ReplaceMeansReplace | internal/cron/cron.go:113-141 | Re-parsing after a replace gives the entries with that one replaced and the same passthroughs if and only if the new entry is printable |
| Crontab.EditInPlace | internal/cron/cron.go:110-141 | An edit replaces exactly the line of the i-th entry; comments, assignments and ignored lines stay in their original positions |
| Crontab.LinesOfRender | internal/cron/cron.go:137-140 | Rendering clean lines and splitting them again is the identity |
| CronService.RemoteCrontab.Create | internal/cron/service.go:73-93 | The newlines at the end of the crontab give way to one, unless it is blank, and the enabled entry's line follows with its own; nothing changes when the host fails |
| CronService.RemoteCrontab.Update | internal/cron/service.go:97-115 | Writes the edited lines, each ended by a newline, or reports an unreachable host or an index past the entries and changes nothing |
| CronService.RemoteCrontab.Delete | internal/cron/service.go:119-132 | The same for removal, leaving an empty crontab when no line is left |
| CronService.LinesOfAppended | internal/cron/service.go:80-87 | Appending keeps every line and adds the new one |
| CronService.CreateCommutes | web/src/hooks/useCrons.ts:102-124 | After adding, the client's list equals the re-parse of what the service wrote, if and only if the entry is printable; the dialog's entry is cleared |
| CronService.UpdateCommutes | web/src/hooks/useCrons.ts:139-150 | The same for the entry the service returns for an edit or a toggle |
| CronService.ToggleCommutes | web/src/hooks/useCrons.ts:242-262 | Toggling a listed entry commutes unless it enables a minute that cannot start a line |
| CronService.ToggleAnticipates | web/src/hooks/useCrons.ts:126-137 | Before the answer, the toggled list is already the re-parse of what will be written, but for the entry's raw line |
| CronService.RevertUndoes | web/src/hooks/useCrons.ts:152-163 | A failed toggle leaves the client as before the optimistic update |
| CronService.DeleteCommutes | web/src/hooks/useCrons.ts:165-179 | After deleting, the list equals the re-parse, and each row error stays with the entry it was about |
| CronService.ErrorsMove | web/src/hooks/useCrons.ts:168-173 | Every surviving error moves with its entry and no other error appears |
| CronService.ReindexLoop | web/src/hooks/useCrons.ts:168-173 | The loop over the record, in any order of its keys, computes that re-indexing |
| AuthRateLimit.WindowBound | internal/auth/session.go:151-206 | A half-open thirty-minute window with k successful logins or clean-ups sees at most 10 + 9k wrong passwords evaluated; with none, at most 10 |
| AuthRateLimit.WindowExact | internal/auth/session.go:151-206 | Exactly: for every sequence of successful logins and clean-ups in a window, a bound on the wrong passwords evaluated holds in every run if and only if it is at least 10 + 9 for each of them |
| AuthRateLimit.OneResetForgets | internal/auth/session.go:201-206 | With one successful login, or one clean-up, nineteen wrong passwords are evaluated at one instant |
| AuthRateLimit.LockoutExact | internal/auth/session.go:151-199 | Over every run, an address is locked out at t if and only if one of its wrong passwords was the tenth in a row evaluated outside any lockout, at most thirty minutes before |
| AuthRateLimit.LockoutEnds | internal/auth/session.go:182-199 | The first attempt thirty minutes or more after the failure that started a lockout is evaluated; a wrong password counts as the first failure, a right one clears the entry |
| AuthRateLimit.EvaluatedOutside | internal/auth/session.go:151-169 | A wrong password is evaluated exactly when no such thirty minutes are running |
| AuthRateLimit.CleanupDropsUnlocked | internal/auth/session.go:293-297 | The clean-up drops an entry exactly when it was never locked, and never changes whether an address is locked at any time |
| AuthRateLimit.NextSound | internal/auth/session.go:173-199 | Every entry reached has fewer than ten failures exactly when it was never locked |
| AuthSessions.ExpiryMeansAlive | internal/auth/session.go:209-280 | The expiry computed from the history is what the history means: created at most seven days ago and not deleted since |
| AuthSessions.SessionStore.CreateSession | internal/auth/session.go:209-228 | Adds one creation to the history and keeps the table in step with it |
| AuthSessions.SessionStore.ValidateSession | internal/auth/session.go:231-259 | Answers true if and only if the session is alive by the history |
| AuthSessions.SessionStore.DeleteSession | internal/auth/session.go:262-273 | Ends one session |
| AuthSessions.SessionStore.DeleteAllSessions | internal/auth/session.go:276-280 | Ends every session |
| AuthSessions.SessionStore.CleanupExpired | internal/auth/session.go:284-299 | Changes no session's answer now or later, cleans every counter as specified, and lifts no lockout |
| AuthSessions.SessionStore.CheckRateLimit | internal/auth/session.go:152-169 | Refuses exactly while the lockout lasts, told from what the address has done |
| AuthSessions.SessionStore.RecordFailedAttempt | internal/auth/session.go:173-199 | Within a lockout reports what is left of it; else counts one failure, from one after a lockout, and the tenth locks for 1800 seconds; no other address is touched |
| AuthSessions.SessionStore.HandleLogin | internal/auth/handler.go:69-105 | Lockout, told from the history of the address, then set-up, then password; a wrong one is counted and answered by whether it locked the address, a right one clears the counter and creates the only new session |
| Reconnect.BackoffDelay | internal/ssh/reconnect.go:69-78 | The doubling loop computes 2^n seconds below 30, and 30 from there, for every n |
| Reconnect.FrontendAgrees | web/src/lib/reconnect.ts:8-10 | The frontend's closed form is the same delay: 1000 * 2^n milliseconds below 30000, and 30000 from there |
| Reconnect.SleepsTotal | internal/ssh/reconnect.go:69-78 | The first k backoff sleeps total 2^k - 1 seconds |
| Reconnect.Reconnector.Run | internal/ssh/reconnect.go:109-171 | Against any outcomes: goes on exactly through retryable failures slept through, at most max(1, 5 - attempts) connects, ends connected with the counter cleared, failed, or cancelled; from a reset its k < 5 sleeps total 2^k - 1 seconds |
| Reconnect.Reconnector.Reset | internal/ssh/reconnect.go:186-192 | Back to reconnecting with no attempts and no error |
| Thresholds.CountedOncePerLongStreak | internal/monitor/collector.go:79-109 | The callback fires once per maximal failure streak of length three or more |
| Thresholds.OncePerLongStreak | internal/monitor/collector.go:79-109 | The same, counted forward |
| Thresholds.ThirdOfEveryStreak | internal/ssh/reconnect.go:219-248 | Reconnects are the sum of floor(length / 3) over the maximal streaks |
| Thresholds.KeepaliveRun | internal/ssh/reconnect.go:219-248 | The keepalive loop makes exactly that many |
| Monitor.Collector.RecordFailure | internal/monitor/collector.go:79-109 | Counts one failure, keeping the counters those of the outcomes so far |
| Monitor.Collector.Collect | internal/monitor/collector.go:112-178 | One cycle: the first good reading gives a partial snapshot without a usage, a later one compares the last two good readings, a failure leaves the snapshot alone |
| Monitor.Collector.FiredOncePerStreak | internal/monitor/collector.go:79-135 | At any time the callbacks made are one per long streak of the outcomes |
| Monitor.DeltasRecovered | internal/monitor/command.go:107-116 | When every true counter only grows, by less than 2^64 in all, the wrapping subtractions recover the true deltas |
| Monitor.UsageIsBusyShare | internal/monitor/command.go:93-122 | The usage is the true busy share within 0 and 100 if and only if no time has passed, or the busy time is not negative and idle and iowait together have not gone back |
| Monitor.UsageInRange | internal/monitor/command.go:93-122 | With a sound busy time, it is within 0 and 100 if and only if no time has passed or idle and iowait together have not gone back |
| Monitor.UsageOfGrowing | internal/monitor/command.go:93-122 | When every counter only grows, it is the true busy share within 0 and 100 |
| Monitor.UsageComputes | internal/monitor/command.go:107-122 | Whatever the counters do, the chain of wrapping subtractions gives the busy time modulo 2^64 |
| Monitor.BackwardsCounter | internal/monitor/command.go:113-116 | The failing side is reached: one tick of iowait back with idle unmoved against two busy ticks reads as 200 percent |
| LogPurge.PurgeIsFilter | internal/logging/logger.go:68-122 | A purge leaves exactly the in-window and unparseable lines in order if and only if the scan ran or nothing was stale |
| LogPurge.PurgeScans | internal/logging/logger.go:68-122 | A purge changes nothing if the time written in the first line is in the window, and else drops exactly the lines with a time before the cutoff |
| LogPurge.WrittenOfLines | internal/logging/logger.go:116-120 | Printing the lines of a text gives the text back, with a newline at the end |
| LogPurge.FastPathRefines | internal/logging/logger.go:75-90 | On a log in time order both paths give the same lines |
| LogStamp.FirstLineParsesAlike | internal/logging/logger.go:84-90 | A first line read with its newline parses, if at all, to the time of the trimmed line |
| LogStamp.StampIgnoresNewline | internal/logging/logger.go:126-138 | So the stamp the logger reads is one the fast path may rely on |
| LogStamp.StampIs | internal/logging/logger.go:124-138 | The stamp of a line is the time written between its first "time=" and the next blank or the end, and there is none without that marker |
| LogStamp.StampIsWritten | internal/logging/logger.go:84-110 | So a line has a stamp before a cutoff exactly when such a time is written in it |
| LogPurge.RunRefines | internal/logging/logger.go:33-122 | From opening, over any run of writes on a log in time order, the file holds after every write exactly the lines full filters would have left |
| LogWindow.RunKeepsWindow | internal/logging/logger.go:51-59 | Over any run of full filters no line is older than the retention and the slack before the last purge, and that purge is less than an hour before the write |
| LogPurge.LoggerKeepsWindow | internal/logging/logger.go:33-59 | From opening, over any run, after every write at t no line of the file is stamped before t - retention - 1 h - (time between the two clock readings at opening - 1 tick) |
| LogPurge.WindowExact | internal/logging/logger.go:43-59 | That is exact: a margin holds over every run opened with two clock readings if and only if it is at least their distance less one tick |
| LogPurge.OldestLine | internal/logging/logger.go:43-47 | A line stamped at the opening cutoff is kept, and just before the first hourly purge it is as old as the bound |
| LogPurge.Logger.PurgeIfStale | internal/logging/logger.go:68-122 | Seek, fast path, scan, truncate and write back compute the purge of the text: untouched if the time of its first line is in the window, else without exactly the lines with a time before the cutoff |
| LogPurge.Logger.FreshLines | internal/logging/logger.go:92-113 | The scan keeps exactly, in order, the lines with no time before the cutoff written in them |
| LogPurge.Logger.Write | internal/logging/logger.go:51-59 | A write purges when an hour has passed since the throttle was set, and sets it then; it always appends |
| LogPurge.Logger.constructor | internal/logging/logger.go:33-49 | Opening purges once and starts the throttle |

## Left out

Of the batch runs:

- Setting the current run and starting its goroutines is one step; a restart is one step whose parameters say which of its store statements succeeded and whether the process survived it.
- Cancel calls are a set of runs they captured plus a flag for the cancelled context; a sweep is one step because it holds the session lock throughout.
- The sequential `BatchRunner` fixes in advance what the other goroutines, the store and the clock do, and puts the end of the wait after the read loop; the other orders are covered by the machine, not by that class.
- BatchTheorems.SubscriberStream: does not claim closure for a channel attached after its run's waiter closed the streams, because the code does not check for completion when subscribing.
- `BatchService` methods run without interruption; what may come in between is `BatchProtocol`'s matter.
- Interactive input, the REST and WebSocket handlers and JSON, which replaces invalid UTF-8 in split chunks: output is plain bytes.
- Store transactions whose commit fails after taking effect; a store statement either happens or does not.
- IDs are numbers compared for equality, assumed fresh; remote commands, scripts and terminals are outcomes given to the model.
- Sessions are only open or closed; errors of closing them are logged by the code and not modelled.

Of the crontabs:

- Blanks are the six ASCII ones; Unicode blanks and invalid UTF-8 are not modelled.
- Negative indices, running an entry and the command that reads and writes the remote crontab; a failed write is taken to change nothing.
- One client action at a time: indices captured before a pending toggle may shift.
- The reducer's loading, dialog and output cases, and the server selection of the batch dialog.

Of the logins:

- Concurrent logins for one address, undecodable requests, a failing random source when creating a session, the request's cookie parsing, password hashing and changing.
- Times are whole seconds; Go's zero time is None.

Of the rest:

- Overlapping reconnection goroutines on one Reconnector, the classification of errors into retryable and fatal, and the tickers.
- BatchRunner.Runner.ReadLoop: elapsed time is measured from before the first flush to after the last one's clock reading, because those are the readings the code takes.
- LogPurge.RunRefines: asks for complete lines in time order, because an unterminated last line merges with the next write and the fast path trusts the order.
- LogPurge.LoggerKeepsWindow: asks in addition, as the other window results do, for a clock that does not go back and for written lines stamped at most the retention before the write, because an append is not filtered.
- Failures of the log file's own reads and writes, and the tee to standard output.
- The timestamp format is any parser that rejects text with a newline in it; the window over a run is proved for any stamp of lines that a trailing newline does not change, which the logger's is.
- The manager that adds and removes collectors.
- Monitor.UsageIsBusyShare: asks that the true total neither goes back nor grows by 2^64 between readings, because the total read is only known modulo 2^64.
- Memory, disk, network and process metrics, per-core lists and floating-point rounding of the percentages, which are reals here.
- Groups, servers, settings, the terminal, the tray, static files and the React components.
