# Ruvic Sentinel: verified models of the buffer, the command protocol and their smaller cores

A Dafny model of the stateful cores of the monitoring agent and its backend, with proofs of what they promise.
`dafny verify dfyconfig.toml` checks everything.

| files | what they model |
|---|---|
| `Sequences` | subsequences, shared by the rest |
| `BufferDisk`, `BufferReading`, `BufferSteps`, `BufferReload`, `TelemetryBuffer` | the disk-backed FIFO: segments on disk, cursor queue, cached count, rotation, retention, put-back, reload from the state file |
| `DrainLoop` | the exporter's loop interleaved with producers, restarts and deaths inside any operation |
| `BufferExamples` | runs of the buffer in which a promise fails |
| `CommandRecords`, `CommandQueue`, `ConnectionManager` | command records and their lifecycle, the persistent queue, dispatch and redispatch |
| `AgentSession` | the agent's 256-entry duplicate window and what it does with one request |
| `CommandProtocol`, `CommandHistory`, `CommandDeployment` | backend, channels and agent together, as a state machine; what its records owe to the history of a run; and the classes that take its steps |
| `RateLimiter`, `RateLimiterRuns`, `AuditLog` | the sliding-window limiter, whole runs of it, and the hash-chained log |
| `Enrollment` | single-use tokens over three files, with a crash between any two writes |
| `Compactor`, `CompactorDicts`, `CompactorRows`, `CompactorLaws`, `CompactorMarks`, `CompactorCounts`, `CompactorMeaning` | the recursive result compactor: repeating it, what it marks, what it notes, and what each field and item of its result is |
| `Netlink` | the RTNETLINK dump parser |
| `Alerts`, `Watchers` | the alert engine and the snapshot-comparing watchers |

## How to read the model

**Buffer.** A disk is a map from paths to files; a file is a sequence of lines, each a record, a broken line, a blank
one or the torn beginning of a record, with a byte length and an age. What may go wrong in one call is a `Faults`
value: the append or the restore write raises, having left nothing, a part, or all of what it was to write; the rename
or the state write fails; some files cannot be opened (`lost`), some can be neither removed nor truncated (`stuck`).
The class has the original's fields; `Contents()` is what `take` can reach, `Backlog()` adds an active file that
nobody queued yet, and `dropped` counts what retention threw away. The outcome of each operation is a predicate on the
snapshots before and after: `PutOutcome`, `RestoreOutcome`, `TakeDelivers`, `TakeLoses`, `TakeRepeats`,
`TakeRepeatsUnopened`, `TakeKeeps`. An active file that was dropped or finished but is still there is `Revived` or
`Lingers`: the next put queues it again from its first line; `Revives` is the condition before the call. `Counted`
says that the cached count covers everything owed and that no active file with lines is left out of the queue. A run
carries a `Tally`: what was lost, the deaths that `strays` counts (they leave lines of the active file out of the
queue), the `revivals`, and the deaths that are `estranged` (they find other files than the queued and the active one,
or come between the rename of a rotation and the state write). After a state write that failed, a run has no death.

**Commands.** `Climbs` is the lifecycle pending < sent < acked < running < final. In `CommandProtocol` a send and its
mark are one step, a reconnection and its sweep are one step, and the frames of a session that ended are gone. The
classes take exactly these steps (`CommandDeployment`), so the theorems over runs hold of them. The at-most-once
theorem of `AgentSession` assumes none of this: it is about any sequence of requests whatever.

**Hypotheses that stand for foreign code.** The hash is an injective function whose values are not GENESIS, not empty
and hold no bar (`Ideal`). `str` leaves strings alone (`Sane`). Drawn tokens and message ids are new.

## What turned out differently from what one would expect

- `mark` has no guard. It keeps the lifecycle exactly when the record is unknown, already in that state or in an
  earlier one (`MarkClimbs`); an ack handled before the send is marked is undone by the mark (`LateMarkFallsBack`).
- An active file that can be neither removed nor truncated is delivered again exactly when a batch empties the queue
  and that file holds an event (`TakeStuck`, `StuckExample`); one that cannot be opened, exactly when the read gets
  that far and an event was read from it before (`TakeUnopened`, `UnopenedExample`). One that retention cannot remove
  is owed again as a whole, and nothing else is, exactly when it exceeds a cap even alone and no rotation moves it
  away first (`RevivedIff`, `PutOrdered`, `RestoreOrdered`, `RevivedPut`).
- An append that is cut short tears the active file, and the event of the next `put` is lost with its own: exactly
  when the active file ends in a torn line (`AppendTears`, `PutRoom`, `SwallowedExample`). An append that raises does
  not queue the file; if it was not queued before, a rotation in the same `put` strands what is in it (`Stranded`).
- A `restore` that breaks off leaves a part of its events in a file that nobody queued (`FailedWrite`). Such files,
  and those that were dropped but could not be removed, come back only in a process that recovers no cursor
  (`ReloadLeftovers`, `LeftoverExample`, `FoundAgain`).
- A death in a `put` that did not rotate leaves what the process owed then, wherever its pruning stood
  (`ReloadInPut`). One between the rename of a rotation and the state write strands the rotated file when other files
  are left in the queue, and otherwise delivers again what was already read from it (`ReloadAfterRotation`, both
  directions; `StrandedExample`, `RepeatedExample`).
- A process that opens the directory undercounts what it owes if and only if the state file leads to some file that is
  there, but not to the active one, and that one holds lines (`Stray`, `StrayIff`). A death in the `put` right after a
  rotation leaves that (`StrayAfterAppend`, `StrayOpening`); deaths outside `put` do not (`RunForever`).
- A backend that restarts after a save failed may send a command again that it had marked as sent (`SentTwice`); if
  every record was saved, a restart is no more than a disconnection (`RestartBackend`).
- An audit write that is cut short breaks the chain. If the line no longer parses, the next process starts again from
  GENESIS, its first entry is swallowed by the torn line and its second is linked only if the log had held exactly
  that entry (`TornWriteBreaksChain`). If just the line feed is missing, the first entry destroys the last one with
  itself, and the second is never linked (`LostLineFeedBreaksChain`).
- The command check of `allow_per_command` is idle in every run exactly if its two clock readings coincide and no key
  of one agent is a command key of another (`IdleIff`). An agent id can read like another's command: then the other's
  command check rejects although its agent check passes (`CollidingAgents`); and so it does with two readings
  (`SeparateReadings`).
- Compacting again changes a compacted result exactly if that holds a mixed row: one whose summary has both a key
  named like CIM metadata and another (`CompactAgain`). Such rows come from properties that bear a metadata name
  (`OrdinarySettles`, `MixedRowChanges`). Compacting twice is always final.
- The extra `truncated` mark that `compact_event_for_otlp` sets under a smaller limit never changes anything
  (`PackedIsCompacted`).
- The `<key>_omitted` counts are not conserved over two stages: the loop reaches the old count after its list and
  writes it back over the new one (`SecondCutUncounted`). The note is the right total exactly if the second limit is
  not below the first (`NoteIsTotalIff`, `FiveGoneOneNoted`).
- A capped watcher takes the new snapshot over even when it left changes out; its events reproduce the service state
  exactly when the changes of the tick fit under the cap (`TickFaithful`, `CappedTick`).
- A consumption that stops after its first write loses the token unless the tokens file still has its mint line
  (`CrashAfterFirstWrite`, `LostTokenExample`).

## Model

| member | source | states |
|---|---|---|
| `BufferDisk.CountUnderFaults` | colsoft_tools/telemetry_buffer.py:50-61 | a file that cannot be opened is not counted, so faults only lower a count |
| `BufferDisk.AppendedUnread` | colsoft_tools/telemetry_buffer.py:259-268 | an append adds exactly its line at the end of what is owed, whether or not the active file was queued; behind a torn line it adds nothing |
| `BufferDisk.RenamedUnread` | colsoft_tools/telemetry_buffer.py:199-219 | rotation moves lines between files and changes nothing that is unread |
| `BufferDisk.RotatedOwed` | colsoft_tools/telemetry_buffer.py:199-219 | nor what the queue owes: a queued active file is still owed as it was, an unqueued one is stranded, and no more than that |
| `BufferDisk.PrunedStep` | colsoft_tools/telemetry_buffer.py:246-257 | dropping one path removes one whole segment and leaves every other file and cursor as it was |
| `BufferDisk.PrunedOwed` | colsoft_tools/telemetry_buffer.py:221-257 | retention keeps the order of what is owed and counts every event it throws away; an active file it drops and cannot remove is owed again as a whole |
| `BufferDisk.PrunedPending` | colsoft_tools/telemetry_buffer.py:246-257 | retention keeps the cached count an upper bound, and exact when it was exact and nothing failed, unless such a file is revived |
| `BufferReading.ReadOutOwed` | colsoft_tools/telemetry_buffer.py:357-411 | batch and remaining contents together are the contents before; what else is still owed is exactly the left-over active file |
| `BufferReading.TakeOrder` | colsoft_tools/telemetry_buffer.py:357-411 | a read takes a prefix, in order, out of every file it can open, whatever fails, unless the active file lingers |
| `BufferReading.TakeLingers` | colsoft_tools/telemetry_buffer.py:386-411 | if it lingers, the batch is everything in the files that open, and the active file is owed again from its first line |
| `BufferReading.TakeStuck` | colsoft_tools/telemetry_buffer.py:386-411 | a stuck active file is delivered again if and only if the batch empties the queue and the file holds an event |
| `BufferReading.TakeUnopened` | colsoft_tools/telemetry_buffer.py:365-372 | an active file that cannot be opened is delivered again if and only if the read gets that far and an event was read from it before |
| `BufferReading.UnopenedExample` | colsoft_tools/telemetry_buffer.py:365-411 | an event that is delivered twice that way |
| `BufferReading.TakePending` | colsoft_tools/telemetry_buffer.py:292-298 | a read keeps the cached count an upper bound, and exact when it was exact and every file opened, unless the active file lingers |
| `BufferSteps.PruneStages` | colsoft_tools/telemetry_buffer.py:221-244 | first the files that are too old, then the front until the caps hold: the survivors are the longest suffix that fits |
| `BufferSteps.NothingToDrop` | colsoft_tools/telemetry_buffer.py:221-244 | nothing is dropped when all is fresh and no cap is exceeded |
| `BufferSteps.PrunedYoung` | colsoft_tools/telemetry_buffer.py:221-232 | after retention every queued file but the active one can be opened and is young enough |
| `BufferSteps.RevivedIff` | colsoft_tools/telemetry_buffer.py:221-257 | retention leaves the active file behind, unqueued, if and only if it cannot be removed and exceeds a cap even alone; nothing else is queued then |
| `BufferSteps.AppendTears` | colsoft_tools/telemetry_buffer.py:259-268 | the active file ends in a torn line exactly after an append that was cut short, until a line is written again |
| `BufferSteps.PutOrder` | colsoft_tools/telemetry_buffer.py:270-281 | whatever fails, a put adds its event at the end and never reorders, repeats or invents, and what is missing was dropped or stranded; only a revived active file is owed again, as a whole, and nothing else is then |
| `BufferSteps.PutPending` | colsoft_tools/telemetry_buffer.py:270-281 | a put keeps the cached count an upper bound even when the append failed, unless the active file is revived |
| `BufferSteps.PutClean` | colsoft_tools/telemetry_buffer.py:259-281 | and leaves no active file with lines out of the queue, unless an append that raised left it so |
| `BufferSteps.PutRoom` | colsoft_tools/telemetry_buffer.py:270-281 | with room for one more line a put drops nothing, and its event comes last, unless the active file ends in a torn line |
| `BufferSteps.PutSizes` | colsoft_tools/telemetry_buffer.py:199-219 | the active file stays as far below the limit as it was unless the rotation fails, and a rotated one overshoots by less than one line more |
| `BufferSteps.PutFacts` | colsoft_tools/telemetry_buffer.py:270-281 | append, rotation and retention together give `PutOutcome`: order, conservation, caps, count, sizes, other files untouched |
| `BufferSteps.RestoreFacts` | colsoft_tools/telemetry_buffer.py:300-322 | the write and retention together give `RestoreOutcome`: the events come first, order, conservation, caps, count; or a revived active file alone |
| `BufferSteps.FailedWrite` | colsoft_tools/telemetry_buffer.py:310-317 | a write that raises loses the events, leaves their beginning in a file that nobody queued, and changes nothing else |
| `BufferSteps.TakeFacts` | colsoft_tools/telemetry_buffer.py:292-298 | a take gives exactly the first n events and leaves the rest; what faults may lose; exactly when a stuck or unopenable active file repeats; what it keeps |
| `BufferSteps.RestoreUndoesTake` | colsoft_tools/telemetry_buffer.py:292-322 | restore(take(n)) gives the same sequence and count back when there is room for the copy |
| `BufferReload.DiscoveredTidy` | colsoft_tools/telemetry_buffer.py:150-170 | in a tidy directory without a queued file, discovery finds at most the active file |
| `BufferReload.ReloadSame` | colsoft_tools/telemetry_buffer.py:104-188 | reopening a directory that holds the queued files and the active one owes the same lines |
| `BufferReload.ReloadLeftovers` | colsoft_tools/telemetry_buffer.py:104-170 | reopening any directory owes the same events if and only if the saved queue was not empty or no other file holds an event |
| `BufferReload.LeftoverExample` | colsoft_tools/telemetry_buffer.py:104-170 | an event that comes back that way |
| `BufferReload.StrayIff` | colsoft_tools/telemetry_buffer.py:115-148 | exactly when a new process leaves an active file with lines out of its queue and its count |
| `BufferReload.StrayAfterAppend` | colsoft_tools/telemetry_buffer.py:259-281 | a death in the append of a put leaves that exactly if other files were queued, the active one was not, and it holds a line |
| `BufferReload.ReloadAfterAppend` | colsoft_tools/telemetry_buffer.py:104-148 | after a death in the append of a put, whatever it left of the line, the reload owes what the append added, and nothing is lost |
| `BufferReload.ReloadInPut` | colsoft_tools/telemetry_buffer.py:270-281 | after a death at any point between the append and the state write of a put that does not rotate, however far its pruning is, the reload owes what the process owed then |
| `BufferReload.ReloadAfterRead` | colsoft_tools/telemetry_buffer.py:104-148 | after a crash in a take, before its state write, the reload owes all but at most the batch, in order |
| `BufferReload.ReloadAfterRotation` | colsoft_tools/telemetry_buffer.py:199-281 | what a death at any point between the rename and the state write of a put leaves, however far its pruning is, and whether or not the state file knows the active file; and exactly when nothing is lost or repeated |
| `BufferReload.StrandedExample` | colsoft_tools/telemetry_buffer.py:213-219 | an event that is lost that way |
| `BufferReload.RepeatedExample` | colsoft_tools/telemetry_buffer.py:213-219 | and one that is delivered twice |
| `BufferReload.ReloadInRestore` | colsoft_tools/telemetry_buffer.py:300-322 | after a death in restore, whatever it has written and however far its pruning is, the reload owes what the process would owe, unless another queued file is left: then everything but the restored events |
| `TelemetryBuffers.TelemetryBuffer.Open` | colsoft_tools/telemetry_buffer.py:78-148 | each limit is the configured one or its least value; the queue is the recovered cursors, or the discovered files; a saved state that fits is taken over line by line; the count is recounted, and covers everything owed exactly if no active file strays |
| `TelemetryBuffers.TelemetryBuffer.AppendLine` | colsoft_tools/telemetry_buffer.py:259-268 | the line goes to the active file, which is queued if it was not; if that raises, what got to the file stays, and the queue does not change |
| `TelemetryBuffers.TelemetryBuffer.RotateIfNeeded` | colsoft_tools/telemetry_buffer.py:199-219 | at the limit the active file moves to an unused name and its cursor with it |
| `TelemetryBuffers.TelemetryBuffer.PruneByAge` | colsoft_tools/telemetry_buffer.py:221-232 | the passes end, and leave the queue without its stale files |
| `TelemetryBuffers.TelemetryBuffer.PruneByCaps` | colsoft_tools/telemetry_buffer.py:233-244 | the front goes while a cap is exceeded, and no further |
| `TelemetryBuffers.TelemetryBuffer.Prune` | colsoft_tools/telemetry_buffer.py:221-244 | both stages: whole segments only, caps met or queue empty |
| `TelemetryBuffers.TelemetryBuffer.DropPath` | colsoft_tools/telemetry_buffer.py:246-257 | the file, its cursor and its lines in the count go together |
| `TelemetryBuffers.TelemetryBuffer.Put` | colsoft_tools/telemetry_buffer.py:270-281 | `PutOutcome`; no file is left that is older than the configured days, nor more than the configured bytes and events; and what the state file then says |
| `TelemetryBuffers.TelemetryBuffer.Take` | colsoft_tools/telemetry_buffer.py:292-298 | the first n events, the rest kept, and the exact effect of faults |
| `TelemetryBuffers.TelemetryBuffer.Restore` | colsoft_tools/telemetry_buffer.py:300-322 | `RestoreOutcome`, with the same limits; a failed write changes nothing but a file of its own |
| `TelemetryBuffers.TelemetryBuffer.FlushToWs` | colsoft_tools/telemetry_buffer.py:338-355 | removes exactly the confirmed prefix; never reorders or repeats; keeps the cached count an upper bound, and exact without faults |
| `TelemetryBuffers.TelemetryBuffer.ReadFront` | colsoft_tools/telemetry_buffer.py:357-411 | fills the batch from the front files, disposes of the finished ones, advances the cursor of the next |
| `TelemetryBuffers.ReadLines` | colsoft_tools/telemetry_buffer.py:373-385 | the inner loop reads exactly as many lines as the batch needs, skipping broken and blank ones |
| `DrainLoop.RunForever` | colsoft_tools/data_plane.py:1182-1241 | over every interleaving of puts, takes, acknowledged and failed exports, restarts and deaths inside put, take and restore, whatever fails, acknowledged + in flight + buffered is a subsequence of what was put unless an active file was revived or a death was estranged; without faults conservation holds, and it is the whole history when nothing was lost; the cached count stays an upper bound, and exact without faults, unless a death strayed; the active file and every rotated one stay small |
| `DrainLoop.Reincarnate` | colsoft_tools/telemetry_buffer.py:104-148 | a new process owes what the dead one owed, but for what the death interrupted, in order, and counts it right, unless the death is estranged or strays; when it is estranged |
| `DrainLoop.DieInPrune` | colsoft_tools/telemetry_buffer.py:270-281 | a death in the pruning of a put that did not rotate: what is missing was dropped |
| `DrainLoop.DieInRestore` | colsoft_tools/telemetry_buffer.py:300-322 | a death in restore keeps the order and loses no more than the batch and what was dropped |
| `DrainLoop.Live` | colsoft_tools/data_plane.py:1200-1216 | one step of a living process: order, conservation, count and sizes, and when it revives an active file |
| `DrainLoop.CountSurvives` | colsoft_tools/telemetry_buffer.py:143-148 | the recount of what survived is right again when all of it is queued |
| `DrainLoop.OneMore` | colsoft_tools/data_plane.py:1200-1216 | one step of the loop extends order, conservation, count and sizes by what was put in it |
| `DrainLoop.StaysSmall` | colsoft_tools/telemetry_buffer.py:199-219 | a step that writes at most one line keeps every rotated file within one line of the limit, but for the lines written where no rotation could follow |
| `BufferExamples.StrayOpening` | colsoft_tools/telemetry_buffer.py:104-148 | a process that counts one of the two events it owes |
| `BufferExamples.RevivedPut` | colsoft_tools/telemetry_buffer.py:221-281 | a put under a cap of one event, with an active file that cannot be removed: a delivered event is owed again |
| `BufferExamples.SwallowedExample` | colsoft_tools/telemetry_buffer.py:259-281 | a torn append swallows the event of the next put |
| `BufferExamples.FoundAgain` | colsoft_tools/telemetry_buffer.py:300-322 | a broken-off restore whose first event the next process finds |
| `CommandRecords.MarkClimbs` | server/command_queue.py:167-184 | `mark` keeps the lifecycle if and only if the record is unknown, in that state or in an earlier one |
| `CommandRecords.ClimbsMeans` | server/connection_manager.py:42-49 | to climb is: nothing becomes pending again, nothing is sent but what was pending, what ran does not go back, what is final stays |
| `CommandRecords.LateMarkFallsBack` | server/connection_manager.py:464-477 | an ack that is handled between a send and its mark is undone |
| `CommandRecords.IndexUnique` | server/command_queue.py:68-82 | the per-agent index is determined by the records |
| `CommandRecords.SweepPerRecord` | server/connection_manager.py:484-508 | a sweep handles each open record once, on its own: expired, sent or left; what goes out is exactly the pending, unexpired ones that get through |
| `CommandRecords.SweepByTime` | server/connection_manager.py:496-508 | an open record past its time expires and is not sent; before that it is sent if it is pending and gets through, and left alone otherwise |
| `CommandRecords.SweepInOrder` | server/connection_manager.py:484-508 | requests go out in nondecreasing order of issue |
| `CommandRecords.SweepClimbs` | server/connection_manager.py:484-508 | a sweep only climbs |
| `CommandQueues.CommandQueue.constructor` | server/command_queue.py:54-82 | loading a directory, listed in any order, rebuilds the records and their index |
| `CommandQueues.CommandQueue.Enqueue` | server/command_queue.py:98-152 | idempotent per message id; a new record is pending, indexed and saved, and lives for its timeout, at least half a minute |
| `CommandQueues.CommandQueue.Mark` | server/command_queue.py:167-184 | writes the state whatever it was; index and other records stay |
| `CommandQueues.CommandQueue.ListForAgent` | server/command_queue.py:157-162 | exactly the agent's records, each once, oldest first |
| `CommandQueues.CommandQueue.NonTerminalFor` | server/command_queue.py:186-192 | those of them that are not final |
| `CommandQueues.InsertedListing` | server/command_queue.py:157-162 | inserting where the time belongs keeps a listing sorted and complete |
| `ConnectionManagers.SweepStep` | server/connection_manager.py:496-508 | a sweep is the same as one sweep per record in turn |
| `ConnectionManagers.CountedSend` | server/connection_manager.py:474-477 | `attempts` stays the number of requests sent |
| `ConnectionManagers.ConnectionManager.DispatchRecord` | server/connection_manager.py:397-482 | sent if and only if online, signed and delivered; the mark and the count go with the send |
| `ConnectionManagers.ConnectionManager.DispatchPending` | server/connection_manager.py:484-508 | the sweep over the agent's open records, in order of issue, the clock read for each: which expire, which go out, which stay |
| `ConnectionManagers.ConnectionManager.SendCommand` | server/connection_manager.py:281-362 | which refusals come first; what is queued, sent and counted otherwise, and how long it lives |
| `ConnectionManagers.ConnectionManager.HandleAgentMessage` | server/connection_manager.py:524-560 | an ack or a known status moves its record to the state of that status; everything else is ignored |
| `AgentSession.WindowIsLast` | ws_tools_client_embedded.py:296-309 | the window is the last 256 ids let through, none twice |
| `AgentSession.OnceIffSpaced` | ws_tools_client_embedded.py:296-309 | ids are let through at most once if and only if at most 255 others are between any two deliveries of one id |
| `AgentSession.AnswerExecutes` | ws_tools_client_embedded.py:1273-1446 | a request is executed if and only if it is well formed, new to the window and passes every check |
| `AgentSession.AnswerReports` | ws_tools_client_embedded.py:1284-1570 | silence for a duplicate; otherwise exactly one final status, which says truly what became of the request, and an ack before it if and only if it was executed |
| `AgentSession.AtMostOnce` | ws_tools_client_embedded.py:1304-1446 | whatever requests arrive, in whatever order and however often, a process executes each id at most once under that spacing |
| `AgentSession.AtMostOnceExactly` | ws_tools_client_embedded.py:1304-1446 | when all requests pass the checks, if and only if |
| `AgentSession.Session.IsDuplicateMessage` | ws_tools_client_embedded.py:302-309 | deque and set stay in step; the oldest id leaves when the window is full |
| `AgentSession.Session.HandleRequest` | ws_tools_client_embedded.py:1273-1570 | the actions of one request, in order, and the window afterwards |
| `CommandProtocol.AnswerFits` | ws_tools_client_embedded.py:1284-1570 | every answer climbs from `sent`, executes at most once and reports an outcome only after executing |
| `CommandProtocol.ExecuteEarly` | ws_tools_client_embedded.py:1446-1500 | an execution may overtake the frames still on their way without breaking that |
| `CommandProtocol.StepKeepsInv` | server/connection_manager.py:397-560 | every step of backend, channel or agent keeps the invariant of every command |
| `CommandProtocol.StepClimbs` | server/connection_manager.py:42-49 | no step moves a record back |
| `CommandProtocol.StepInTime` | server/connection_manager.py:496-508 | no step sends what is past its time |
| `CommandProtocol.LifecycleMonotone` | server/connection_manager.py:397-560 | over every run with disconnections, agent restarts and restarts of a backend that saved every record, states only climb: no final state is left, `pending` is not entered again |
| `CommandProtocol.BackendBelievesRight` | server/connection_manager.py:524-560 | a command recorded as completed or failed was executed exactly once, a pending or rejected one never, any other at most once |
| `CommandProtocol.SentOnceInTime` | server/connection_manager.py:474-508 | each command goes out at most once, never past its TTL, and `attempts` says whether it did |
| `CommandProtocol.ExecutedWasAsked` | server/connection_manager.py:474-482 | what was executed had been sent |
| `CommandHistory.AnswerIsTrue` | ws_tools_client_embedded.py:1284-1570 | the agent says of a request only what is true of it: acked and running if it passes every check, success or error by how it ended, rejected or expired by the check that failed |
| `CommandHistory.StepAccounted` | server/connection_manager.py:397-560 | every step keeps a reason in the history for every record, frame and action, and reads no send twice |
| `CommandHistory.ReadOnce` | server/connection_manager.py:474-508 | over every run the agent reads at most one request of an id |
| `CommandHistory.RecordedTruly` | server/connection_manager.py:524-560 | over every run a record is completed only if its request passed and succeeded, failed only if it passed and did not succeed, rejected only if a check said so, expired only if the last check or a sweep did |
| `CommandHistory.RecordedOfARead` | server/connection_manager.py:524-560 | and such a request was read |
| `CommandHistory.NothingStale` | server/command_queue.py:118-125 | over every run each transmission belongs to a submission, and comes at most its timeout, or half a minute, after it |
| `CommandHistory.FinalStays` | server/command_queue.py:38-44 | over every run what is completed, failed, expired or rejected stays so |
| `CommandDeployment.CoreSweep` | server/connection_manager.py:484-508 | the sweep of the stored records is the sweep of the protocol |
| `CommandDeployment.AllActedSound` | ws_tools_client_embedded.py:1386-1570 | working one request off is a row of protocol steps that keeps the invariant, sends the frames of the answer and executes what it executes |
| `CommandDeployment.Deployment.Submit` | server/connection_manager.py:281-362 | `send_command_to_agent` takes the step of a submission, or none if it refuses; records only climb |
| `CommandDeployment.Deployment.Reconnect` | server/controllers.py:439-486 | registering and redispatching take the step of a reconnection; records only climb |
| `CommandDeployment.Deployment.AgentTurn` | ws_tools_client_embedded.py:1273-1570 | the session's handling of a request takes the agent's steps |
| `CommandDeployment.Deployment.BackendTurn` | server/connection_manager.py:524-560 | `handle_agent_message` takes the backend's step; records only climb |
| `CommandDeployment.Deployment.RestartBackend` | server/command_queue.py:54-82 | a backend that restarts with every record saved takes the step of a disconnection |
| `CommandDeployment.SentTwice` | server/command_queue.py:84-94 | if the save of a sent mark failed, the restarted backend sends the command again |
| `CommandDeployment.Deployment.Believes` | server/connection_manager.py:397-560 | so what the manager's records say is what the sessions executed and what came of it, and `attempts` is what went out, within its lifetime |
| `RateLimiters.AtMostLimit` | colsoft_tools/security.py:391-399 | grants spaced as the limiter spaces them never exceed the limit in any closed window |
| `RateLimiters.LastWindow` | colsoft_tools/security.py:391-399 | after trimming, the queue is exactly the grants of the last window |
| `RateLimiters.KeysDiffer` | colsoft_tools/security.py:401-404 | one agent's keys do not collide |
| `RateLimiters.RateLimiter.Allow` | colsoft_tools/security.py:391-399 | granted if and only if fewer than `limit` grants lie in the last window; a denial means exactly `limit` do |
| `RateLimiters.RateLimiter.NeverOverLimit` | colsoft_tools/security.py:383-399 | in every run, no closed window holds more than `limit` grants of a key |
| `RateLimiters.RateLimiter.AllowPerCommand` | colsoft_tools/security.py:401-404 | both checks, each on its own key and reading, and what they grant |
| `RateLimiterRuns.OneReadingIff` | colsoft_tools/security.py:391-404 | with one clock reading a call, the command check never rejects after the agent check passed, in any run of any agents, if and only if no key of one agent is a command key of another |
| `RateLimiterRuns.IdleIff` | colsoft_tools/security.py:391-404 | and with readings up to some lag apart, if and only if moreover that lag is zero |
| `RateLimiterRuns.IdleOtherwise` | colsoft_tools/security.py:391-404 | a limiter that grants nothing or forgets at once never gets that far |
| `RateLimiterRuns.RunCalls` | colsoft_tools/security.py:401-404 | running the limiter from empty answers each call as both checks say |
| `RateLimiterRuns.CollidingAgents` | colsoft_tools/security.py:401-404 | a run of two agents with one reading a call whose second call is rejected by its command check |
| `RateLimiterRuns.SeparateReadings` | colsoft_tools/security.py:391-404 | a run of one agent with two readings whose second call is |
| `AuditLogs.SameTailSameLog` | colsoft_tools/security.py:436-491 | two linked logs with the same last hash are the same log |
| `AuditLogs.OneChain` | colsoft_tools/security.py:452-491 | any run of appends and reopenings leaves one chain from GENESIS with every text in order |
| `AuditLogs.TailOfIntact` | colsoft_tools/security.py:452-466 | the tail read from the file is the last hash of the chain |
| `AuditLogs.TornWriteBreaksChain` | colsoft_tools/security.py:452-491 | what a write cut within its line does to the chain, and exactly when the chain survives |
| `AuditLogs.LostLineFeedBreaksChain` | colsoft_tools/security.py:452-491 | what a write that lost just its line feed does, and that the chain never survives |
| `AuditLogs.AuditLog.Append` | colsoft_tools/security.py:468-491 | one more entry at the end of the chain |
| `Enrollment.AcceptedOnce` | server/enrollment.py:246-337 | over every history with crashes between writes, a token is accepted at most once, and a minted one for its owner |
| `Enrollment.ConsumeKeeps` | server/enrollment.py:257-295 | whatever write it stops after, a consumption leaves truthful files and forgets no consumed token |
| `Enrollment.ConsumeAccepts` | server/enrollment.py:257-295 | it accepts only a token not consumed before, consumed from then on, with the right owner |
| `Enrollment.MintSafe` | server/enrollment.py:298-337 | minting keeps the files truthful whatever write it stops after |
| `Enrollment.StaysPending` | server/enrollment.py:93-125 | requests about other tokens leave a minted one alone until its time is over |
| `Enrollment.MintedIsAccepted` | server/enrollment.py:257-337 | a minted token is accepted for its owner when first presented within its lifetime, which is at least a minute |
| `Enrollment.AcceptedWhileGood` | server/enrollment.py:257-337 | and over every history it is accepted for an owner only within that lifetime, and only for its own |
| `Enrollment.AcceptedInTime` | server/enrollment.py:93-138 | a token is accepted for an owner only if the disk names that owner, with a time of expiry that has not passed or none |
| `Enrollment.ExpiredIsRefused` | server/enrollment.py:93-138 | a token of which the disk says only times that have passed is refused, and nothing is written |
| `Enrollment.FixedIsAccepted` | server/enrollment.py:224-295 | a token of the environment or of a plain line is accepted without an owner, once |
| `Enrollment.CrashAfterFirstWrite` | server/enrollment.py:160-192 | after a consumption cut after its first write, a later one accepts the token if and only if the last mint line in the tokens file names a user and has not expired |
| `Enrollment.LostTokenExample` | server/enrollment.py:257-295 | without a tokens file no later presentation is accepted |
| `Enrollment.Store.ConsumeToken` | server/enrollment.py:257-295 | the writes, one after the other |
| `Enrollment.Store.MintToken` | server/enrollment.py:298-337 | the writes, one after the other |
| `Compactor.CompactResult` | colsoft_tools/data_plane.py:286-378 | the loop over a dictionary computes the compaction the laws are about |
| `CompactorLaws.SlimTwice` | colsoft_tools/data_plane.py:228-283 | every summary of an item other than a row is its own summary |
| `CompactorRows.RowAgain` | colsoft_tools/windows_collectors.py:245-267 | the summary of a row is its own summary if and only if it does not mix metadata keys with others, and a second summary always is |
| `CompactorRows.OrdinaryRow` | colsoft_tools/windows_collectors.py:245-267 | only a property named like metadata makes it mixed |
| `CompactorLaws.SamplePrefix` | colsoft_tools/data_plane.py:221-225 | a sample is a prefix of its summarised source, as long as it may be |
| `CompactorLaws.SampleTwice` | colsoft_tools/data_plane.py:221-225 | and its own source, if and only if it holds no mixed row |
| `CompactorLaws.CompactAgain` | colsoft_tools/data_plane.py:286-378 | what was compacted under one limit stands under any larger or equal one if and only if it holds no mixed row at any depth; after a second time it always does |
| `CompactorLaws.OrdinarySettles` | colsoft_tools/data_plane.py:286-378 | without properties named like metadata in the input it holds none |
| `CompactorLaws.MixedRowChanges` | colsoft_tools/windows_collectors.py:245-267 | a row that changes when compacted again |
| `CompactorLaws.CompactedOnce` | colsoft_tools/scheduler.py:165-178 | compacting twice at one limit is the same as once if and only if the first result holds no mixed row, and three times the same as twice on every input |
| `CompactorMarks.MarkedExactly` | colsoft_tools/data_plane.py:286-378 | the root says `truncated` if and only if it came marked or a list was cut at any depth the compactor reaches |
| `CompactorCounts.FieldsKept` | colsoft_tools/data_plane.py:286-378 | each field's value is settled by the field alone; only the notes of what was left out are new |
| `CompactorMeaning.FieldStays` | colsoft_tools/data_plane.py:286-378 | a field that is neither a dictionary nor a sampled list keeps its value, and no field is invented |
| `CompactorMeaning.ListMeans` | colsoft_tools/data_plane.py:286-378 | a sampled list gives way, in order, to what becomes of its items: the first two hundred packages or points, and of others as many as the limit says; what is left out is counted |
| `CompactorMeaning.DictionaryMeans` | colsoft_tools/data_plane.py:320-376 | a dictionary is compacted in turn, channels one by one, event data to texts |
| `CompactorMeaning.PackageMeans` | colsoft_tools/data_plane.py:228-237 | a package becomes its name or product, its version and its hash |
| `CompactorMeaning.SlimDataMeans` | colsoft_tools/data_plane.py:240-248 | event data becomes its first twelve fields, as texts of at most 180 characters |
| `CompactorMeaning.EntryMeans` | colsoft_tools/data_plane.py:251-261 | an entry becomes its metadata, a message cut to 180 characters, and its data |
| `CompactorMeaning.RecordMeans` | colsoft_tools/data_plane.py:264-283 | a record becomes its first twelve fields: scalars as they are, texts cut, lists as their length |
| `CompactorMeaning.PointMeans` | colsoft_tools/data_plane.py:337-350 | a point becomes its name and value, with unit and time where given |
| `CompactorMeaning.RowMeans` | colsoft_tools/windows_collectors.py:235-267 | a row becomes its properties and its fields that are not metadata, each made plain; one without any stays |
| `CompactorMeaning.TruthyMeans` | colsoft_tools/data_plane.py:228-237 | which values count as absent |
| `CompactorMeaning.DecimalReads` | colsoft_tools/data_plane.py:278-279 | the length of a list reads back as that number |
| `CompactorCounts.CountNoted` | colsoft_tools/data_plane.py:286-378 | a list cut for the first time is noted with the number of items left out |
| `CompactorCounts.OldCountStays` | colsoft_tools/data_plane.py:286-378 | a note that stands after its list is overwritten with its old value |
| `CompactorCounts.SecondCutUncounted` | colsoft_tools/data_plane.py:286-378 | so a second cut, under whatever limit, never changes the note |
| `CompactorCounts.NoteIsTotalIff` | colsoft_tools/data_plane.py:286-378 | the note is the number left out in both cuts if and only if the second limit is not below the first |
| `CompactorCounts.FiveGoneOneNoted` | colsoft_tools/data_plane.py:347-355 | thirteen services cut under 12 and then 8: five are gone, the note says one |
| `CompactorMarks.UnmarkedSame` | colsoft_tools/data_plane.py:286-378 | a summary without a mark lost nothing to its limit |
| `CompactorMarks.PackedIsCompacted` | colsoft_tools/data_plane.py:437-445 | the packed result is the compacted one; the extra mark adds nothing |
| `CompactorMarks.PackedFirst` | colsoft_tools/data_plane.py:437-445 | and it is the one under the first of 12, 8, 4 and 2 items that fits |
| `CompactorMarks.PackedOnce` | server/controllers.py:541-547 | packing a packed result gives it back in any envelope that has room for it if it holds no mixed row, and only then where there is room for what comes instead |
| `Netlink.ParseIfNames` | colsoft_tools/linux_collectors.py:876-897 | ends on every input, reads nothing out of bounds, returns the names of the messages in front |
| `Netlink.ParseAttributes` | colsoft_tools/linux_collectors.py:887-895 | the same for the attributes of one message |
| `Netlink.AttrsRoundTrip` | colsoft_tools/linux_collectors.py:887-895 | the names of well-formed attributes, in order |
| `Netlink.ParseAfter` | colsoft_tools/linux_collectors.py:876-897 | well-formed messages give their names, then the rest is parsed |
| `Netlink.DumpRoundTrip` | colsoft_tools/linux_collectors.py:876-897 | a well-formed dump ended by DONE gives exactly its interface names, whatever follows |
| `Netlink.CutDump` | colsoft_tools/linux_collectors.py:876-884 | a dump cut inside a link message loses that message and nothing before it |
| `Alerts.RuleKeeps` | colsoft_tools/obs_monitors.py:359-423 | one rule extends its (threshold+ cleared)* rightly, leaves every other id alone, and its alert is on exactly if it holds |
| `Alerts.ThresholdsApart` | colsoft_tools/obs_monitors.py:387-391 | two thresholds with no clear between them are a cooldown apart |
| `Alerts.EmittedFollows` | colsoft_tools/obs_monitors.py:359-423 | what a rule emits is what its history asks for: a threshold when due, a clear when over, nothing otherwise |
| `Alerts.AlertEngine.Evaluate` | colsoft_tools/obs_monitors.py:359-423 | all of it for every rule of a snapshot, over any run: the alert is on exactly if the value is beyond the threshold, and raised when it comes on and whenever it has stood for a cooldown |
| `Watchers.ReplayAll` | colsoft_tools/endpoint_security.py:282-329 | the events of a comparison carry a reader from the old snapshot to the new one |
| `Watchers.ReplayIff` | colsoft_tools/obs_monitors.py:203-233 | for services, if and only if no change was left out |
| `Watchers.HistoryReplays` | colsoft_tools/sec_monitors.py:109-143 | all events replayed on the first baseline give the latest, after any number of ticks |
| `Watchers.AllReached` | colsoft_tools/obs_monitors.py:212-231 | three capped loops report everything, or exactly the cap |
| `Watchers.ReportTells` | colsoft_tools/endpoint_security.py:282-329 | a report of the changes tells each in the terms of the two snapshots |
| `Watchers.TickFaithful` | colsoft_tools/obs_monitors.py:203-233 | a tick keeps the reader up to date if its changes fit under the cap, and for services only then |
| `Watchers.CappedTick` | colsoft_tools/obs_monitors.py:203-233 | two new services under a cap of one give one event, and the reader stays behind |
| `Watchers.Diff` | colsoft_tools/endpoint_security.py:282-329 | a created, deleted or modified event with the records of the snapshots exactly for the keys that came, went or changed, in this order, up to the cap |
| `Watchers.Watcher.Tick` | colsoft_tools/sec_monitors.py:109-120 | baseline first; then the events that tell the comparison, and the new snapshot is taken over |
| `Watchers.LensesFit` | colsoft_tools/endpoint_security.py:313-316 | which records count as unchanged, and what an event shows of them; those show the same hash, and for services also the converse |

## Left out

- DrainLoop.RunForever: no process dies after a state write that failed; the offsets in an old state file may point into the middle of lines written since. A batch in flight when the process dies counts as lost, as in the original.
- DrainLoop.Reincarnate: an estranged death is not followed further in a run; `ReloadLeftovers` and `ReloadAfterRotation` say exactly what the new process then owes.
- TelemetryBuffers.TelemetryBuffer.AppendLine: an append that lost just its line feed; a cut one leaves a part that does not parse.
- BufferReload.ReloadSame: the state file is one this class wrote; the older `files`/`offset` format is not modelled. Directories with files that could not be removed are in `ReloadLeftovers`.
- TelemetryBuffers.DiscoverFiles: the order among files of one kind, which for files of the same second is not FIFO in the original either.
- TelemetryBuffers.TelemetryBuffer.Put: the `ts` stamp; offsets are line numbers, because the original's byte offsets lie at line ends as long as the state file is written.
- `pending()` and `clear()` of the buffer, threads that race in `restore` before its lock, and cancellation during an export.
- ConnectionManagers.ConnectionManager.DispatchRecord: no frame is handled between the send and the mark; `LateMarkFallsBack` shows what that would do.
- ConnectionManagers.ConnectionManager.SendCommand: the future a REST caller waits on, and the command table behind `forbidden` and the default timeout.
- CommandProtocol.LifecycleMonotone: one agent's records, answered by that agent; `handle_agent_message` does not check which agent a frame comes from. A backend restart finds every record saved; `SentTwice` shows what happens otherwise.
- CommandQueues.CommandQueue.constructor: files not named after the record in them get no promise; records without an agent id are not modelled.
- AgentSession.AnswerReports: a session that ends in the middle of an answer; `CommandProtocol` covers it.
- CommandDeployment.Deployment.AgentTurn: the same; the session object always finishes its answer.
- AgentSession.AnswerExecutes: signature, policy, rate limit, script catalogue and expiry are verdicts that come with the request.
- RateLimiters.RateLimiter.Allow: time is real, without rounding.
- AuditLogs.AuditLog.Append: the canonical text is given; the record's other fields on disk and its `ts` are not modelled.
- Enrollment.AcceptedOnce: the consumed file can always be read; the original treats an unreadable one as empty. A line torn while it is appended to the tokens file is not modelled. Each load reads the clock once.
- Compactor.CompactResult: `_counts_only` and the smaller control-plane form are not modelled.
- Netlink.ParseIfNames: names are bytes up to the first NUL; their decoding is not modelled.
- Alerts.AlertEngine.Evaluate: metric paths are looked up in a flat map.
- Watchers.Diff: the order among keys of one loop; `ProcessWatcher` and `PersistenceWatcher` are the same comparison with other records.
- Sockets, HTTP, TLS, JWT, Ed25519 and RSA, JSON text, OS collectors, firewall isolation: foreign code or I/O.
