# orchestratord, verified

A Dafny 4.11 model of the parts of orchestratord that carry its guarantees: the run loop and its
timeouts, the retry scheduler and its crash recovery, the freezing of an agent's process tree, the
claim protocol of the chat dispatchers, the incremental event-log migration, the reading of legacy
and live transcripts, and the two delivery queues of the chat side. `dafny verify dfyconfig.toml`
checks everything.

| file | what it holds |
|---|---|
| `RunLoop.dfy`, `BackendRunner.dfy` | one iteration and one run of the event loop as functions, and the loop as it executes, proved equal to them |
| `PauseTransparency.dfy`, `RunVerdict.dfy`, `RunLaws.dfy`, `Watchdogs.dfy`, `TokenUsage.dfy` | what holds over whole runs: pauses, when each exit is taken, final verdict, tokens, follow-ups, timeouts |
| `ActiveTimeout.dfy` | the wait that charges active time only |
| `RetryScheduler.dfy`, `RetryVerdict.dfy` | retry queue against persisted plans, with stops, resets and session ends at every await of a pass; restarts; attempt counts; which finished runs are retried |
| `ProcessControl.dfy` | pause, resume and kill of a process tree that forks meanwhile |
| `ClaimProtocol.dfy` | dispatchers, runners and API writes over one session table |
| `Migration.dfy` | byte-offset resumption of the log migration |
| `Json.dfy`, `TranscriptCompat.dfy`, `TranscriptLaws.dfy`, `TranscriptRecords.dfy` | legacy transcripts: decoding, what it guarantees, and what each record becomes |
| `EventTailer.dfy`, `WireReassembly.dfy`, `Coalescing.dfy` | live wire text in chunks, and fragments merged per message |
| `Outbound.dfy`, `ChatGateway.dfy` | the pending-message queue and the final frame of a run |
| `Basics.dfy` | options and ends of sequences, shared by the others |

Everything outside the modelled code is a parameter or a nondeterministic step: clock readings,
tracker and file probes, send outcomes, kernel scheduling and permissions, `str`, `json.dumps` and the
JSON parser. Of the parser two things are assumed, both consequences of sections 2, 4 and 7 of RFC 8259: an
object's text runs from its brace to the matching one, and white space deleted from the text of an
object leaves the text of an object. The second serves one half of the exact chunking result only.

## Where the code does less than it says

Each of these has a lemma or method that shows it and a theorem with the exact condition under which
the promise holds.

- The block after the run loop is meant for a stream that ends right after an intermediate
  SESSION_COMPLETE. It also overwrites operator stops and timeouts (`RunVerdict.StopIsOverwritten`);
  they stand if and only if no SESSION_COMPLETE was consumed (`RunVerdict.InterruptionStands`).
- Hence an operator's stop can be undone by the retry scheduler, which tests the overwritten reason
  (`RetryVerdict.StoppedRunIsRetried`); exactly when, in `RetryVerdict.StopUndoneExactly`.
- An ERROR is meant to survive a later generic success. An ERROR with an empty message hides the fatal
  one before it (`RunVerdict.EmptyErrorMasksFatal`); exact condition in `RunVerdict.CompletedBySession`.
- The idle watchdog cannot fire as sessions are configured; `Watchdogs.IdleExact` says when it can.
- Registering an issue for launch wipes its retry plan, and a stop of an issue the retry pass holds
  does too. A retry that survives either is queued without a plan and lost by a restart
  (`RetryScheduler.LateGateThenRestartLoses`). `RetryScheduler.AgreementOverRuns` says exactly when every
  queued retry has its plan, and `RetryScheduler.RestartLosesExactlyTheUnplanned` what a restart loses.
- An operator stop that arrives while a retry pass waits for the tracker is acknowledged and defeated
  (`RetryScheduler.StopDuringFetchIsDefeated`); one that arrives after the registration is not even
  heard (`RetryScheduler.StopAfterRegistrationIsUnheard`). Both states are reached
  (`RetryScheduler.LaunchingRetryIsReachable`). Exactly when a stop holds:
  `RetryScheduler.StopExact` and `RetryScheduler.StopDuringPassExact`; for how long:
  `RetryScheduler.DormantUntilLaunched`.
- A process-tree pause skips a pid it has met, so a dead owned handle whose pid was reused hides a live
  child (`ProcessControl.ReusedPidEscapesFreeze`); `ProcessControl.ProcessTree.Pause` freezes everything
  if and only if no live descendant is so shadowed. After a pause that raised, the next pause does
  nothing and returns normally (`ProcessControl.UnstoppableRootReportedPaused`, exact in
  `ProcessControl.RetriedPauseStopsNothing`).
- A chat session paused from the API while its runner returns is never settled
  (`ClaimProtocol.PausedAtCompletionIsOrphaned`, exact in `ClaimProtocol.TerminalWriteExact`).
- A valid JSON line that cannot be stored stops a file's migration for good
  (`Migration.UnstorableLineWedges`, exact in `Migration.RunCompletesExactly`), and a commit on behalf of
  another file over the same connection would store the half-inserted rows, if there are any
  (`Migration.SharedCommitDuplicates`).
- A workspace registered between two migrations leaves its earlier events quarantined
  (`Migration.LateRegistrationSplits`); increments equal one run exactly as
  `Migration.IncrementalEqualsBatch` says.
- A newline that reaches the tailer as a chunk of its own is dropped as blank and hides the finished
  line before it (`WireReassembly.StrayNewLineHidesLine`), unless the next text starts with a newline of
  its own. A space that arrives alone inside a line is dropped from it
  (`WireReassembly.StraySpaceAltersEvent`). `WireReassembly.ChunkInvariantExact` says which chunkings do no
  harm, and that all others do.
- A queue overflow while a message is in flight makes the flush discard an unsent message
  (`Outbound.EvictionDiscardsUnsent`, exact in `Outbound.SendLedger`). A new form of the message in flight
  is removed with it, unsent (`Outbound.LatestFormNeverSent`, exact in `Outbound.UpdateLostExactly`).
- A direct send that raises anything but "not connected" loses its message
  (`Outbound.RaisingSendLosesMessage`, exact in `Outbound.DirectSendKeptExactly`).

## Model

| member | source | states |
|---|---|---|
| BackendRunner.Runner.ProcessEvents | src/orchestratord/backend_runner.py:1307-1964 | over any finite trace of events, poll ticks, commands and clock readings the loop and the block after it leave exactly the state, exit and unread rest that the run function gives, which the rows on RunLaws, RunVerdict and PauseTransparency describe |
| BackendRunner.Runner.Drain | src/orchestratord/backend_runner.py:2052-2080 | commands are obeyed in order until a stop or takeover, which leaves the rest queued; refused pauses and resumes change nothing |
| BackendRunner.Runner.PauseGate | src/orchestratord/backend_runner.py:2026-2050 | the event is held over the polls until a resume or a stop |
| PauseTransparency.PauseTransparent | src/orchestratord/backend_runner.py:1424-1434 | a run with operator pauses takes the same exit at the same iteration and leaves the same session as the run whose clock omits the paused spans |
| PauseTransparency.LoopUnpaused | src/orchestratord/backend_runner.py:1412-1434 | the same from any state in mid-run, with any amount of time already skipped |
| PauseTransparency.WatchedClean | src/orchestratord/backend_runner.py:1820-1899 | every timeout measures wall time less paused time |
| PauseTransparency.GateIsADrain | src/orchestratord/backend_runner.py:2044-2050 | the polls of the gate amount to one drain of all the commands taken in while it was closed |
| RunVerdict.FinalVerdict | src/orchestratord/backend_runner.py:1910-1924 | final status and reason of every run as a function of its exit, commands and events alone |
| RunVerdict.InterruptionStands | src/orchestratord/backend_runner.py:1820-1924 | stops and timeouts end failed under their own reason if no SESSION_COMPLETE was consumed, and under that frame's reason if one was |
| RunVerdict.StopIsOverwritten | src/orchestratord/backend_runner.py:1910-1924 | a stopped run reported completed |
| RunVerdict.CompletedDespiteError | src/orchestratord/backend_runner.py:1573-1580 | with a non-empty last ERROR, completed if and only if the exit is no-op or inactive and no SESSION_COMPLETE was consumed |
| RunVerdict.CompletedBySession | src/orchestratord/backend_runner.py:1679-1709 | the last SESSION_COMPLETE completes the run if and only if its reason is "success" or "turn_complete" and no ERROR with a message stands, then or at the end |
| RunVerdict.EmptyErrorMasksFatal | src/orchestratord/backend_runner.py:1775-1816 | an empty ERROR after a fatal one lets the run complete |
| RunVerdict.TokensConserved | src/orchestratord/backend_runner.py:1685-1708 | per key, final tokens are the initial ones plus what every consumed SESSION_COMPLETE reported, each once, reprocessed or not |
| RunVerdict.FollowUpsConserved | src/orchestratord/backend_runner.py:1646-1665 | batches sent, then what is pending, are exactly the payloads drained, in order |
| RunVerdict.DrainTakes | src/orchestratord/backend_runner.py:2052-2080 | nothing a drain finds is skipped before the command that ends it |
| RunVerdict.EventsInOrder | src/orchestratord/backend_runner.py:1412-1460 | events are handled once each, in order; only an iteration stopped or held at its entry leaves its event unhandled |
| RunVerdict.LoopKeeps | src/orchestratord/backend_runner.py:1412-1908 | the account of errors, follow-ups, tokens and verdict holds after every iteration |
| Watchdogs.IdleExact | src/orchestratord/backend_runner.py:1884-1899 | for positive timeouts the idle watchdog can fire if and only if it is shorter than the total and than the handshake or inactivity timeout |
| Watchdogs.IdleNeverFires | src/orchestratord/backend_runner.py:599-627 | with the idle timeout defaulted or equal to the total it never fires, whatever the run |
| Watchdogs.IterationOrdered | src/orchestratord/backend_runner.py:1820-1830 | run start, last event and now stay in order through pauses |
| RunLaws.TimeoutExact | src/orchestratord/backend_runner.py:1820-1899 | an iteration that gets to the watchdog times out under w if and only if w is the first of these: no event yet and the time since start less pauses at its limit; events but no TURN_COMPLETE and the time since the last event at its limit; events and that time at the inactivity limit; the time since start less pauses at the total; the time since the last event at the idle limit |
| RunLaws.RunTimesOutExactly | src/orchestratord/backend_runner.py:1820-1899 | a run ends by a timeout if and only if some iteration it starts finds it so |
| RunLaws.TotalEndsRun | src/orchestratord/backend_runner.py:1884-1891 | no iteration starts after one whose reading has reached the total |
| RunLaws.TimeoutRecorded | src/orchestratord/backend_runner.py:1841-1899 | the reason each timeout is recorded under |
| RunLaws.DefaultTimeouts | src/orchestratord/backend_runner.py:599-627 | with nothing set: 30 seconds to the first event, 120 between events before the first turn ends and 300 after, 1800 in all |
| RunLaws.SettingsApply | src/orchestratord/backend_runner.py:599-627 | a timeout that is set is used, and an unset idle timeout is the total |
| RunLaws.ExitsExact | src/orchestratord/backend_runner.py:1535-1773 | told from the events: a run ends as a no-op if and only if the last five turns changed no file, as a read-only loop if and only if eight steps in a row only read, as inactive if and only if neither holds and the tracker says so, and as terminal if and only if a SESSION_COMPLETE answers no follow-up |
| RunLaws.CountersTold | src/orchestratord/backend_runner.py:1476-1640 | turn number, idle turns and read-only steps are those of the events so far, at every point of every run |
| RunLaws.FollowUpTold | src/orchestratord/backend_runner.py:1646-1665 | a SESSION_COMPLETE is intermediate exactly when a follow-up was sent and none has come since |
| RunLaws.TurnDelivers | src/orchestratord/backend_runner.py:1646-1665 | at the end of a turn everything pending is sent as one batch, and stays pending if the send fails |
| RunLaws.EntryExact | src/orchestratord/backend_runner.py:1413-1434 | an event is handled exactly when the session is not paused and no stop or takeover was found before it |
| RunLaws.AfterTaken | src/orchestratord/backend_runner.py:1901-1908 | after the watchdog the commands found are obeyed in order, and the run stops exactly when one of them ends it |
| RunLaws.PausedTold | src/orchestratord/runner_utils.py:540-697 | at every point of every run the session is paused exactly when the last accepted pause, accepted resume or stop obeyed was a pause |
| TokenUsage.Normalize | src/orchestratord/backend_runner.py:53-78 | the loop computes the normalised map that the two lemmas below describe |
| TokenUsage.NormalizedGet | src/orchestratord/backend_runner.py:53-78 | each canonical key holds what all its aliases reported together |
| TokenUsage.NormalizedSum | src/orchestratord/backend_runner.py:53-78 | the total is preserved when aliases collide |
| TokenUsage.SpellingsAddUp | src/orchestratord/backend_runner.py:53-78 | the six canonical counts hold what their two spellings report, the long spellings do not appear, every other key stands for itself |
| TokenUsage.TruncatedTowardZero | src/orchestratord/backend_runner.py:53-78 | fractions are cut toward zero |
| TokenUsage.Merge | src/orchestratord/backend_runner.py:1687-1696 | key-wise addition, in any order of the keys |
| ActiveTimeout.AwaitWithActiveTimeout | src/orchestratord/runner_utils.py:21-50 | the wait ends at the first poll that finds the task done or, unpaused, its active time at the limit |
| ActiveTimeout.ActiveWithinElapsed | src/orchestratord/runner_utils.py:35-43 | active time is at most elapsed time, and equal to it without pauses |
| ActiveTimeout.StretchCharged | src/orchestratord/runner_utils.py:35-43 | an interval is charged by what was found at its beginning: all of a stretch found running, none of a stretch found paused |
| ActiveTimeout.FirstCharged | src/orchestratord/runner_utils.py:28-43 | the first interval is charged unless the session was paused to begin with |
| ProcessControl.Machine.Suspend | src/orchestratord/process_control.py:46-50 | a stop takes effect, unless the process is gone or refuses it, on a kernel in which anything not stopped has run and forked |
| ProcessControl.ProcessTree.constructor | src/orchestratord/process_control.py:19-22 | a tree owns its root |
| ProcessControl.ProcessTree.RememberDescendants | src/orchestratord/process_control.py:24-32 | every live descendant of the root is owned, once, in addition to what was; nothing changes when the root is gone |
| ProcessControl.ProcessTree.Freeze | src/orchestratord/process_control.py:44-53 | suspended first, enumerated after: the children listed are all there will be; a refused listing leaves the process on the frozen list |
| ProcessControl.ProcessTree.Pause | src/orchestratord/process_control.py:34-59 | terminates under a fork budget; returns normally if and only if something is within reach and nothing within reach refuses to be stopped or listed; then exactly what is within reach is frozen, and that is every live descendant if and only if none is shadowed by a reused pid; when it raises, everything it stopped runs again except what refuses to be continued, which stays listed |
| ProcessControl.ProcessTree.Resume | src/orchestratord/process_control.py:61-73 | exactly the frozen processes that do not refuse run again; the frozen list becomes those that do, in their order, and the exit says whether there are any |
| ProcessControl.ProcessTree.KillFrozen | src/orchestratord/process_control.py:83-99 | exactly the frozen processes that do not refuse are dead, none having run meanwhile; the frozen list becomes those that do refuse |
| ProcessControl.ProcessTree.Kill | src/orchestratord/process_control.py:75-99 | an unfrozen tree is frozen first; the kill returns normally if and only if nothing owned is alive, or everything within reach could be stopped, listed and killed; then no unshadowed descendant of an owned handle is alive, whether it was there at the call or born since, none having run after its suspension; when it raises, exactly what did not refuse is dead and what refused is listed, or, if the freezing failed, nothing was killed and only what refuses to be continued is listed; a tree already frozen is killed without having run |
| ProcessControl.WalkFreeze | src/orchestratord/process_control.py:42-53 | the invariant of the walk: children of frozen processes stay inside seen or pending while others fork |
| ProcessControl.WalkSurvivesForks | src/orchestratord/process_control.py:42-53 | forks between two steps keep that invariant |
| ProcessControl.WalkDone | src/orchestratord/process_control.py:42-59 | an emptied worklist means everything within reach is frozen, and every live descendant if and only if none is shadowed |
| ProcessControl.LiveOwnedHandlesShadowNothing | src/orchestratord/process_control.py:34-59 | owned handles that are all alive shadow nothing |
| ProcessControl.StaleHandleShadows | src/orchestratord/process_control.py:40-44 | a dead handle met first hides the live process that reuses its pid |
| ProcessControl.Extinction | src/orchestratord/process_control.py:75-99 | once everything within reach was stopped and is dead, every unshadowed line of descent from an owned handle is dead and never ran after its suspension |
| ProcessControl.PauseThenKill | src/orchestratord/process_control.py:34-99 | pause, any delay, error-free kill: every unshadowed descendant is dead and none ran after its suspension |
| ProcessControl.ReusedPidEscapesFreeze | src/orchestratord/process_control.py:34-59 | a pause that returns normally and leaves a child running |
| ProcessControl.TurnProcessControl.Pause | src/orchestratord/process_control.py:144-148 | a normal return means a frozen tree exactly when no earlier tree was left behind; without one, it returns if and only if nothing within reach of the root refuses, in a kernel that has the processes and refusals of the one before; when it raises, only what refuses to be continued is left listed |
| ProcessControl.TurnProcessControl.Resume | src/orchestratord/process_control.py:150-154 | the tree is forgotten if and only if none of its frozen processes refused |
| ProcessControl.TurnProcessControl.Kill | src/orchestratord/process_control.py:156-184 | whatever happens the tree is forgotten and one stop is fired; for a root, or a tree left behind unfrozen, when the kill returns and what it killed as above; of a frozen tree exactly the refusing processes live |
| ProcessControl.RetriedPauseStopsNothing | src/orchestratord/process_control.py:144-148 | of two pauses in a row the first returns if and only if everything within reach yields; the second always returns and changes nothing |
| ProcessControl.UnstoppableRootReportedPaused | src/orchestratord/process_control.py:144-148 | one process that may not be stopped: the first pause raises, the second reports success, and the process runs on |
| ClaimProtocol.AtMostOnce | src/orchestratord/chat_dispatcher.py:67-89 | for any number of dispatchers, interleavings, crashes and API writes no session is handed to a runner twice |
| ClaimProtocol.RunKeepsInv | src/orchestratord/chat_dispatcher.py:67-172 | locks, owners and statuses agree over every run |
| ClaimProtocol.CrashBeforeCommitLeavesPending | src/orchestratord/chat_dispatcher.py:67-89 | a crash or an error before the commit leaves the row pending and unlocked |
| ClaimProtocol.OldestFirst | src/orchestratord/chat_dispatcher.py:75-84 | a session is taken only when every older pending one is being taken by another dispatcher |
| ClaimProtocol.TakenWasFree | src/orchestratord/chat_dispatcher.py:75-84 | only a pending row nobody works on is taken |
| ClaimProtocol.CreationTold | src/orchestratord/chat_dispatcher.py:75-84 | a row is ordered by the time it was created with |
| ClaimProtocol.TerminalWriteNeverOverwrites | src/orchestratord/chat_dispatcher.py:125-143 | a row stopped from outside keeps that status against every later step |
| ClaimProtocol.TerminalWriteExact | src/orchestratord/chat_dispatcher.py:125-143 | the terminal write settles the row if and only if it is not paused, as completed or failed by what the runner returned |
| ClaimProtocol.CompletedWasInvokedExactlyOnce | src/orchestratord/chat_dispatcher.py:108-123 | a completed row was handed to a runner once, no more and no less |
| ClaimProtocol.IdleMeansSettled | src/orchestratord/chat_dispatcher.py:149-172 | without crashes and API writes, when every dispatcher is idle every session is pending, completed or failed |
| ClaimProtocol.OrphanStaysRunning | src/orchestratord/chat_dispatcher.py:67-89 | a running row without an owner is never picked up again |
| ClaimProtocol.PausedAtCompletionIsOrphaned | src/orchestratord/api/routers/sessions.py:417-465 | paused while the runner returns, resumed later: running for ever |
| ClaimProtocol.PausedAtCompletionIsReachable | src/orchestratord/api/routers/sessions.py:417-448 | one dispatcher and one session suffice for it |
| Migration.Split | scripts/migrate_eventlog_to_db.py:28-67 | the loop computes the split at newlines |
| Migration.ChunksExact | scripts/migrate_eventlog_to_db.py:28-67 | the pieces hold no newline and rejoin to the bytes |
| Migration.SplitAtBoundary | scripts/migrate_eventlog_to_db.py:28-67 | reading in two parts at a line boundary is reading at once |
| Migration.LoadEvents | scripts/migrate_eventlog_to_db.py:28-67 | the complete lines from the offset are parsed in order, the bad ones counted, and the next offset is a line boundary |
| Migration.EveryLineCounted | scripts/migrate_eventlog_to_db.py:45-67 | parsed and skipped lines are all the complete non-blank lines |
| Migration.Connection.InsertRows | scripts/migrate_eventlog_to_db.py:70-84 | rows are inserted in order up to the first that cannot be stored |
| Migration.Connection.RecordOffsetAndCommit | scripts/migrate_eventlog_to_db.py:87-95 | offset and rows become durable together |
| Migration.Connection.MigrateFile | scripts/migrate_eventlog_to_db.py:98-134 | effect of one migration of one file, dry run and failure included |
| Migration.Connection.MigrateFileWithRegistry | scripts/migrate_eventlog_to_db.py:137-177 | the same with known and unknown workspaces told apart |
| Migration.RegistryDecides | scripts/migrate_eventlog_to_db.py:137-177 | a committed run with a registry adds to the events table exactly the parsed events whose workspace is in the registry and to the quarantine exactly the others, both in order; without a registry all go to the events table |
| Migration.KeptPartition | scripts/migrate_eventlog_to_db.py:137-177 | known and unknown side, each the parsed sequence filtered in order, together hold every event of it |
| Migration.HistoryKeepsExact | scripts/migrate_eventlog_to_db.py:98-177 | over appends, migrations each with its own registry or none, dry runs and crashes: the offset sits on a line boundary, the two tables are the two sides of one labelling of the lines before it, by the registry of the run that consumed each, in order and once, and the inserted, quarantined and skipped reported add up to the complete non-blank lines consumed |
| Migration.IncrementalEqualsBatch | scripts/migrate_eventlog_to_db.py:98-177 | after a last migration the offset is that of one run over the final file, whenever its lines can be stored, and the rows are if and only if every earlier run had put its lines where the last registry puts them |
| Migration.OneRegistryLabels | scripts/migrate_eventlog_to_db.py:98-177 | which is so when every run over the file came with the same registry |
| Migration.SidesDecideLabels | scripts/migrate_eventlog_to_db.py:137-177 | two labellings leave the same two tables as a registry does if and only if they agree with it line by line |
| Migration.LateRegistrationSplits | scripts/migrate_eventlog_to_db.py:137-177 | a workspace registered between two runs: its earlier event stays quarantined, where one run would have inserted it |
| Migration.RunCompletesExactly | scripts/migrate_eventlog_to_db.py:98-177 | a run takes in every complete line if and only if all of them can be stored |
| Migration.UnstorableLineWedges | scripts/migrate_eventlog_to_db.py:98-134 | one unstorable line stops the file for good |
| Migration.SharedCommitDuplicates | scripts/migrate_eventlog_to_db.py:87-134 | without the close, another file's commit stores half-inserted rows, exactly when there are any |
| RetryScheduler.SplitReady | src/orchestratord/kernel/dispatch.py:67-82 | ready and waiting items, both in queue order |
| RetryScheduler.SplitMembers | src/orchestratord/kernel/dispatch.py:67-82 | every item is on the side its due time says |
| RetryScheduler.Orchestrator.ScheduleRetry | src/orchestratord/orchestrator.py:1280-1396 | no retry after an end reason that is the operator's; otherwise attempt counting, the limit, the backoff and the plan written with the queued item |
| RetryScheduler.FailureQueues | src/orchestratord/orchestrator.py:1304-1388 | a failure queues a retry if and only if its reason is none of the three operator ones and the attempt is within the limit; the k-th waits min(base * 2^(k-1), cap), and its plan is due when it is |
| RetryScheduler.KthFailureWaits | src/orchestratord/orchestrator.py:1318-1388 | over runs: k is the number of failures since the last reset |
| RetryScheduler.WaitsGrow | src/orchestratord/kernel/dispatch.py:62-64 | the wait never exceeds the cap and never falls: each is twice the one before, capped |
| RetryScheduler.Orchestrator.RequeueRetry | src/orchestratord/orchestrator.py:1431-1454 | doubled capped delay counted from now and the plan left alone, or the plan cleared past the limit |
| RetryScheduler.MissedWaits | src/orchestratord/kernel/dispatch.py:85-104 | an item missed n times waits min(2^n times its delay, cap) from the last time, and is given up exactly when missed more often than it may |
| RetryScheduler.Orchestrator.ProcessRetryQueue | src/orchestratord/orchestrator.py:1460-1554 | the pass as it executes, with sessions ending and the operator acting at every await, is a run of the daemon's steps that starts with this pass and ends with nothing held |
| RetryScheduler.LeadsIsTrace | src/orchestratord/orchestrator.py:1460-1554 | so everything below about runs holds of it |
| RetryScheduler.Orchestrator.CancelPendingRetry | src/orchestratord/orchestrator.py:1936-1960 | items and plan of the issue removed, and whether anything was |
| RetryScheduler.Orchestrator.StopOrTakeover | src/orchestratord/orchestrator.py:1962-2013 | the stop of an issue that is waiting |
| RetryScheduler.Orchestrator.RecoverStaleRunningRecords | src/orchestratord/orchestrator.py:820-845 | running records become waiting ones with the counter at one |
| RetryScheduler.Orchestrator.RecoverPendingRetries | src/orchestratord/orchestrator.py:847-895 | the queue rebuilt from the plans |
| RetryScheduler.StartDaemon | src/orchestratord/orchestrator.py:820-895 | a start over a registry is a restart in the sense of the lemmas |
| RetryScheduler.AgreementOverRuns | src/orchestratord/orchestrator.py:1280-1554 | over every run, with stops, resets and session ends at every await of a pass, no issue is queued or held twice or while running, and every retry is covered by a plan due no later if and only if no issue has been left bare by the steps before |
| RetryScheduler.StepBare | src/orchestratord/orchestrator.py:1460-1554 | exactly how each step bears on whether an issue has an item without a plan |
| RetryScheduler.BareHasCause | src/orchestratord/applications/issue_pr/lifecycle.py:299-404 | the only two causes: a registration for launch, and a stop of an issue the pass holds |
| RetryScheduler.StepInv | src/orchestratord/orchestrator.py:1280-1554 | the invariant behind it, kept by every step |
| RetryScheduler.StepConserves | src/orchestratord/orchestrator.py:1460-1554 | whatever is queued or held stays so, with a longer delay if the tracker missed it, unless the step uses it up or takes it away |
| RetryScheduler.StepInventsNothing | src/orchestratord/orchestrator.py:1460-1554 | a new item was scheduled by its session's failure, put back by a missed fetch, or rebuilt by a restart |
| RetryScheduler.DisposedIsSettled | src/orchestratord/orchestrator.py:1460-1554 | an item used up leaves no other behind: its issue runs, was already done, or has its plan cleared; after a launch that raised, the items not reached are out of memory and the registry keeps their plans |
| RetryScheduler.StepWithinCap | src/orchestratord/orchestrator.py:1487-1493 | a pass never takes the running issues beyond the cap |
| RetryScheduler.NextItemExact | src/orchestratord/orchestrator.py:1476-1493 | the pass drops an item whose issue runs or is done, puts it back when every slot is taken and asks the tracker otherwise, each exactly then |
| RetryScheduler.StatusExact | src/orchestratord/issue_registry/state_machine.py:147-254 | the status on record is the one the launches, ends, resets and registrations so far dictate; abandoned exactly when a failure exceeds the limit |
| RetryScheduler.CountExact | src/orchestratord/issue_registry/state_machine.py:77-128 | the retry count on record is the number of the attempt last queued, through launches and resets |
| RetryScheduler.DoneExact | src/orchestratord/applications/issue_pr/lifecycle.py:600-612 | an issue counts as done exactly when its session succeeded or a gate found it so, and it has not been reset since |
| RetryScheduler.RunConserves | src/orchestratord/orchestrator.py:1460-1554 | over any stretch of a run a retry is still there under its attempt number, or a step in between disposed of it |
| RetryScheduler.RestartAgrees | src/orchestratord/orchestrator.py:847-895 | a restart yields an agreeing state whatever memory held |
| RetryScheduler.RestartRebuilds | src/orchestratord/orchestrator.py:847-895 | an agreed retry comes back once, under its attempt number, due at the later of now and its plan, plus the lag until its item was created |
| RetryScheduler.StaleRunWaits | src/orchestratord/orchestrator.py:820-845 | an issue left running comes back as a first attempt after ten seconds, or the cap |
| RetryScheduler.RestartLosesExactlyTheUnplanned | src/orchestratord/issue_registry/state_machine.py:77-128 | a restart loses exactly the waiting retries without a plan |
| RetryScheduler.LateGateThenRestartLoses | src/orchestratord/issue_registry/state_machine.py:147-254 | a retry gated after registering is queued again and lost by a restart |
| RetryScheduler.StopExact | src/orchestratord/orchestrator.py:1936-2013 | a stop of an issue that is not running leaves nothing under way for it if and only if the pass does not hold it |
| RetryScheduler.StopDuringPassExact | src/orchestratord/orchestrator.py:1460-1554 | if the pass holds it, the stop has held when the pass lets go if and only if the pass used the item up without a launch; otherwise the issue is queued again or running |
| RetryScheduler.DormantUntilLaunched | src/orchestratord/orchestrator.py:1280-1554 | a stop that has held goes on holding until the issue is launched afresh |
| RetryScheduler.LaunchingRetryIsReachable | src/orchestratord/orchestrator.py:1280-1554 | a run from a fresh start to the states the gaps need: a planned retry being fetched, then registered for launch |
| RetryScheduler.StopDuringFetchIsDefeated | src/orchestratord/orchestrator.py:1936-2013 | a stop reported as cancelling, and the issue launched |
| RetryScheduler.StopAfterRegistrationIsUnheard | src/orchestratord/orchestrator.py:1936-2013 | once the issue is registered for launch a stop finds nothing and changes nothing |
| RetryScheduler.RestartCounter | src/orchestratord/orchestrator.py:832-887 | a waiting issue keeps its count across a restart, a running one starts again at one |
| RetryScheduler.AttemptBound | src/orchestratord/orchestrator.py:1308-1345 | between operator resets, with restarts that find the issue waiting, it is queued at most the configured number of times and never for a session whose end reason is an operator's |
| RetryVerdict.RetriedExactly | src/orchestratord/applications/issue_pr/lifecycle.py:577-868 | a finished run is queued for another attempt if and only if its history gives it a verdict other than completed, for a reason that is not an operator's, and attempts remain |
| RetryVerdict.StopUndoneExactly | src/orchestratord/orchestrator.py:1304-1345 | a run the operator stopped is retried if and only if it consumed a SESSION_COMPLETE, the last of which fails it for a reason that is not itself an operator's, and attempts remain |
| RetryVerdict.StoppedRunIsRetried | src/orchestratord/orchestrator.py:1304-1345 | one such run |
| TranscriptCompat.DecodeLegacyCodex | src/orchestratord/transcript_compat.py:64-209 | the loops compute the decoding, which the rows on TranscriptRecords and TranscriptLaws describe, when enough lines are records, and hand the messages back otherwise |
| TranscriptCompat.NormalizeLegacyHistory | src/orchestratord/transcript_compat.py:25-61 | the loop computes the normalised history |
| TranscriptCompat.Advance | src/orchestratord/transcript_compat.py:121-124 | the boundary walk finds the message that owns the offset |
| TranscriptCompat.LinesExact | src/orchestratord/transcript_compat.py:68 | the lines rejoin to the text and none is empty |
| TranscriptRecords.LinesBroken | src/orchestratord/transcript_compat.py:68 | every line but the last ends in one break and holds no other, and no carriage return is parted from its line feed |
| TranscriptRecords.LegacyText | src/orchestratord/transcript_compat.py:25-61 | legacy text is an untyped message of the assistant whose content is text or a list of text blocks, and stands for those texts in order |
| TranscriptCompat.OwnerHolds | src/orchestratord/transcript_compat.py:107-125 | the owner of an offset holds the character there |
| TranscriptLaws.NormalizeIdempotent | src/orchestratord/transcript_compat.py:25-61 | normalising twice is normalising once, for every list of messages |
| TranscriptLaws.PlainStaysInPlace | src/orchestratord/transcript_compat.py:53-60 | a message that is no candidate stays unchanged where it is, between what its two sides become |
| TranscriptLaws.DecodedPlain | src/orchestratord/transcript_compat.py:110-119 | nothing decoded would be taken for legacy text again |
| TranscriptLaws.DecodedLossless | src/orchestratord/transcript_compat.py:120-133 | one block per line in order, each entry stamped with its line's time, unrecognised lines verbatim unless blank |
| TranscriptRecords.LinePlace | src/orchestratord/transcript_compat.py:120-209 | the messages decoded from a line are a stretch of the result, right after those of the lines before it |
| TranscriptRecords.AllPlaced | src/orchestratord/transcript_compat.py:120-209 | and those stretches are all of it |
| TranscriptRecords.AgentMessageDecoded | src/orchestratord/transcript_compat.py:146-147 | a completed agent_message is one text of the assistant, the item's |
| TranscriptRecords.FailureDecoded | src/orchestratord/transcript_compat.py:136-145 | an error and a failed turn are one error of the system with the event's text |
| TranscriptRecords.ToolDecoded | src/orchestratord/transcript_compat.py:158-208 | a tool item is a call with its name and arguments the first time its id is met, and a result with its output, failure flag and exit code when completed |
| TranscriptRecords.PlanDecoded | src/orchestratord/transcript_compat.py:148-157 | a todo list is one line that counts the done among all, an empty one nothing |
| TranscriptRecords.DecimalReads | src/orchestratord/transcript_compat.py:148-157 | the counts read back as the numbers |
| TranscriptRecords.SilentDecoded | src/orchestratord/transcript_compat.py:128-208 | every other recognised record is nothing |
| TranscriptRecords.RunsDecoded | src/orchestratord/transcript_compat.py:25-61 | a history is touched only if its legacy text holds two known records; then each maximal run of it with one known record is replaced by its decoding where it stands, and every other is left |
| TranscriptLaws.LineProvenance | src/orchestratord/transcript_compat.py:120-126 | that time is the one of the message holding the line's first character |
| TranscriptLaws.DecodedPaired | src/orchestratord/transcript_compat.py:154-208 | no tool_use id twice, every tool_result after its tool_use |
| EventTailer.SessionTailer.ConsumeWireText | src/orchestratord/event_tailer.py:607-627 | effect of a chunk on buffer and actions, and whether it was taken for wire text |
| EventTailer.SessionTailer.ProcessLine | src/orchestratord/event_tailer.py:636-648 | what a line amounts to; JSON that is no object fails |
| EventTailer.LineShows | src/orchestratord/event_tailer.py:629-648 | by the JSON of a line: nothing, text, an event of one of the four kinds, or a failure |
| EventTailer.AcceptedExactly | src/orchestratord/event_tailer.py:607-621 | a chunk is refused exactly when nothing is buffered, it is no event and does not start like one |
| WireReassembly.ChunkInvariant | src/orchestratord/event_tailer.py:586-648 | fitting chunks of a stream of wire lines give the actions of the lines one by one, however it was cut, and leave only white space |
| WireReassembly.ChunkInvariantExact | src/orchestratord/event_tailer.py:586-648 | and no other chunks do: exact for every chunking of every stream of wire lines |
| WireReassembly.MisfitShows | src/orchestratord/event_tailer.py:586-627 | from any state a misfit makes the next action another one, or none, whatever follows |
| WireReassembly.StuckFed | src/orchestratord/event_tailer.py:586-627 | of a finished object whose line break was dropped, with none to follow before more text, no object is seen |
| WireReassembly.CandidateIsALine | src/orchestratord/event_tailer.py:609-619 | a chunk that is an event by itself is the rest of exactly one line |
| WireReassembly.OfferedKeeps | src/orchestratord/event_tailer.py:607-627 | one chunk that fits leaves the actions of the whole stream as they were |
| WireReassembly.StrayNewLineHidesLine | src/orchestratord/event_tailer.py:586-593 | a newline arriving alone on an unfinished line leaves that line unseen |
| WireReassembly.StraySpaceAltersEvent | src/orchestratord/event_tailer.py:586-593 | a space arriving alone inside a line is dropped, and another event is seen than was sent |
| Coalescing.Coalesce | src/orchestratord/event_tailer.py:106-142 | the loop with its index of positions computes the coalesced list |
| Coalescing.BoundedEqualsUnbounded | src/orchestratord/event_tailer.py:128-141 | folding truncated fragments is truncating the folded text |
| Coalescing.CoalescedFragments | src/orchestratord/event_tailer.py:106-142 | per key, once: truncation, length and overflow flag of everything said |
| Coalescing.CoalescedKeeps | src/orchestratord/event_tailer.py:58-63 | of everything said under a key the first 500 characters are kept, with an ellipsis if that is not all |
| Coalescing.EmittedJoins | src/orchestratord/event_tailer.py:58-63 | truncating before and after joining keeps what truncating once would |
| Coalescing.CoalescedShape | src/orchestratord/event_tailer.py:106-142 | keys in order of first occurrence, other events untouched and in order |
| Outbound.Client.constructor | src/orchestratord/im_gateway_client.py:85-99 | empty queue, limit at least one, base and maximum delay in order |
| Outbound.Client.QueuePending | src/orchestratord/im_gateway_client.py:340-372 | deques stay aligned, bounded and without duplicates; an equal message is replaced where it stands, else the oldest gives way when full |
| Outbound.QueuedExactly | src/orchestratord/im_gateway_client.py:340-372 | the same text, to the same place, in answer to the same message takes the place of the one waiting; anything else joins at the end, the oldest giving way when full |
| Outbound.Client.SendToOrigin | src/orchestratord/im_gateway_client.py:296-338 | the answer to a send sets or resets the backoff; messages queued meanwhile are there; only a send that is not connected or refused comes back as unsent, any other failure is raised |
| Outbound.Client.Defer | src/orchestratord/im_gateway_client.py:389-400 | next flush after the delay, delay doubled and capped |
| Outbound.Client.FlushPending | src/orchestratord/im_gateway_client.py:406-453 | when a flush goes ahead, and that it is the flush of the lemmas |
| Outbound.FlushStartsExactly | src/orchestratord/im_gateway_client.py:415-428 | the head is sent if and only if it has somewhere to go and the backoff has run out or is overridden; otherwise nothing changes |
| Outbound.Client.SendOutbound | src/orchestratord/im_gateway_client.py:235-273 | queued behind waiting messages, else sent at once and queued if refused or not connected; a send that raises leaves the call |
| Outbound.WaitingSendLedger | src/orchestratord/im_gateway_client.py:267-270 | a message sent while others wait joins them: the queue is then the old messages, the new one, what the flush took in, in order, less one from the front per delivery and per eviction |
| Outbound.WaitingSendKept | src/orchestratord/im_gateway_client.py:267-270 | without evictions it is sent or waits, in the last form it came in by then |
| Outbound.WaitingSendItself | src/orchestratord/im_gateway_client.py:267-270 | and if no equal message comes in meanwhile, as it was given |
| Outbound.SendRaisesExactly | src/orchestratord/im_gateway_client.py:260-273 | the call raises exactly when it sends at once and the send raises; without an address nothing changes |
| Outbound.DirectSendKeptExactly | src/orchestratord/im_gateway_client.py:270-322 | a direct send leaves its message sent or queued if and only if it did not raise, or an equal message was queued meanwhile |
| Outbound.RaisingSendLosesMessage | src/orchestratord/im_gateway_client.py:312-322 | a message gone without a trace |
| Outbound.QueuedOrderly | src/orchestratord/im_gateway_client.py:340-372 | bounded, distinct, and the message queued is there in its latest form |
| Outbound.FlushedOrderly | src/orchestratord/im_gateway_client.py:406-453 | the same over a whole flush with arrivals |
| Outbound.FlushLedger | src/orchestratord/im_gateway_client.py:406-453 | over a flush the queue is what came in, in order, less one per delivery and one per eviction from the front |
| Outbound.FlushIsFifo | src/orchestratord/im_gateway_client.py:430-453 | without evictions a prefix is sent in order and the suffix left, each message sent in the last form it came in before its own send began, each one left in its last form |
| Outbound.FlushForms | src/orchestratord/im_gateway_client.py:340-364 | what a flush sends is in the last form that came in before its send began, evictions or not |
| Outbound.FlushCurrent | src/orchestratord/im_gateway_client.py:340-364 | what a flush leaves waits in its last form, evictions or not |
| Outbound.UpdateLostExactly | src/orchestratord/im_gateway_client.py:430-453 | the last form of a message that comes in during a send waits afterwards if and only if its message is past the first n + 1 of all that came in, n being the evictions during the send |
| Outbound.UpdateLostInFlight | src/orchestratord/im_gateway_client.py:430-453 | without evictions: if and only if it is not a new form of the message in flight |
| Outbound.LatestFormNeverSent | src/orchestratord/im_gateway_client.py:353-364 | an envelope replaced in mid-send and never sent |
| Outbound.SendLedger | src/orchestratord/im_gateway_client.py:430-453 | which entry a delivered send removes: the one sent, or the one as many places behind as there were evictions |
| Outbound.EvictionDiscardsUnsent | src/orchestratord/im_gateway_client.py:366-369 | an eviction in mid-send costs an unsent message |
| Outbound.BackoffAfterAnswers | src/orchestratord/im_gateway_client.py:389-404 | whatever the answers, after k rejections since the last delivery the delay is min(base * 2^k, max), and the next flush is the delay before that after the last rejection |
| ChatGateway.FinalFrameOnce | src/orchestratord/chat_gateway.py:70-78 | in every interleaving, with nothing owed any more, a queue subscribed at the end or later holds the final frame once unless full, and one that had left holds none |
| ChatGateway.FrameByHistory | src/orchestratord/chat_gateway.py:70-192 | told from the steps: a queue made before the first finish holds its frame once if and only if it was not unsubscribed in between nor found full; one made after it holds it once |
| ChatGateway.EveryQueueMade | src/orchestratord/chat_gateway.py:70-78 | which covers every queue there is |
| ChatGateway.FinalIsStable | src/orchestratord/chat_gateway.py:181-192 | the first final frame is the only one |
| ChatGateway.RunKeeps | src/orchestratord/chat_gateway.py:70-85 | the invariant of all steps |

## Left out

- Output text, session summaries, cost in USD, telemetry, progress reporting, hints to the agent and frames on the control socket: written beside the modelled state, never read by it.
- Per-tool durations in the run loop: not shifted by pauses, so outside pause transparency.
- Exceptions raised by the backend's event stream and by the tracker inside the run loop.
- `_poll_events`: a trace holds its poll ticks as iterations without an event; the pending task behind them is not modelled.
- RunVerdict.EventsInOrder: speaks of a finite trace; a run held at its gate when the trace ends has no verdict yet.
- The `claimed` set; the choice of fresh issues in the orchestrator's poll, whose launch is one step; the end of a session is one step, too.
- A stop that cancels a running issue's task from the orchestrator, and what commit and verification do to a session the run loop left completed: `RetryVerdict` speaks of the verdict of the run loop.
- Real kernels: signals are one step each, no process exits by itself while a call is under way (a handle may be dead when the call starts), and what a process refuses is settled when it is born.
- Row locking is taken from `FOR UPDATE SKIP LOCKED` as one lock per row held to the end of its transaction; the database is not modelled further.
- The JSON parser's internals, and recursion limits it may hit.
- What a wire event leads to in the tailer's tool bookkeeping, its timestamps and the `run_metrics` event: the actions reach it in the same order, which is all that is compared.
- The file tailer: it moves past a partial last line, so no claim is made that it matches a full read.
- `_deliver_flush_runner` and the lock of the flush: flushes are taken one at a time, and a direct send already in flight when the queue fills is not interleaved with one.
- WireReassembly.ChunkInvariantExact: text of a chunk that is not taken for wire text and agent text of a line count as the same action; the two events differ in `turn` and `timestamp_quality`.
- Subscribers of a run are a set of queues, and ordinary broadcast frames are not followed.
- Migrations of the schema, `intent.py`, prompt building, dashboards, mode routing, reports and the rules learner: formatting, finite tables or floating-point scores.
