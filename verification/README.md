# Private-claw: models and proofs

Dafny models of the parts of the assistant runtime that hold real state, each with the properties
its comments and callers rely on. `dafny verify dfyconfig.toml` checks everything.

| files | what they are about |
|---|---|
| `McpConnection`, `McpRuns`, `McpSafety`, `McpProgress` | one MCP session shared by concurrent operations: a class with the source's fields, a step system cut where the source suspends (waiting for the lock, `__aenter__`, `__aexit__`, the operation), and theorems over all its runs |
| `Coordinator`, `CoordinatorRuns`, `CoordinatorSafety`, `CoordinatorFinality`, `CoordinatorOutcomes` | the delegation coordinator: the polling loop, workers, cancellation, drain, crash and restart, over every interleaving |
| `SessionLog`, `JsonCodec`, `RecordBuilder`, `RecordContents`, `Replay`, `ReplayLaws`, `ReplayOrder`, `ReplayContents`, `Cancellation`, `History`, `RoundTrip` | agent messages become records, records become messages for the model, messages become agent history again |
| `LogOrder`, `Compaction`, `CompactionLaws`, `CompactionRuns`, `CompactionContents` | when a session log is compacted, what is kept, and what holds over whole runs |
| `Recovery`, `RecoveryLaws`, `RepairContents`, `RecoveryScan` | the startup scan that repairs session logs |
| `MemoryIndex`, `IndexLaws`, `RecencyOrder`, `IndexRuns`, `Retrieval`, `RecentCandidates`, `CategoryCaps` | the memory indexes, their incremental updates against a rebuild, lookup against a scan |
| `Capabilities`, `AdapterCache`, `AdapterContents` | nested capabilities and the adapter cache keyed by their set |
| `Numerals`, `NumeralLaws`, `ResumeCallback` | signed callback payloads |
| `Ledger` | the idempotency ledger as a refinement of a map |
| `Usage`, `UsageLaws`, `UsageContents`, `CompactionUsage` | token and cost totals across `/reset` and compaction |
| `Egress` | chunked sending that resumes after failures |
| `Options`, `Sequences`, `Strings`, `StringLaws` | what several of them need |

Where the source changes fields in place, the model is a class whose methods are proved against
functions on values; the theorems are about those functions, or about step systems made of them.

## Where the code differs from what it says

Each of these is a lemma with a concrete run or input, next to the exact condition under which the
code does what one would expect.

* `reconfigure` says the next operation connects with the new settings. A `reconfigure` during a
  connection's `__aenter__` leaves a live session with the old ones
  (`LiveSessionIsCurrentIffNotRaced`, `RacedReconfigureExample`).
* The retry backoff stops working at the 1025th consecutive failure: `2 ** (failures - 1)` no longer
  fits a float, `_ensure` raises before `_retry_at` is set (`BackoffBound`, `BackoffStopsGrowing`).
* `cancel_task` says the record it returns is settled. It is, but it is final only while no worker
  can still write it (`FinalIffNotAtRisk`). One can if the polling loop reaped, listed or drained at
  the wrong moment (`TerminalIsForever`, and three runs that break it). With the file system store and
  the loop's pauses the first two do not occur; a cancellation during a shutdown can.
* `_inject_cancellation_results` says every tool call has a result afterwards. Retried returns count
  as results there but are not stored (`CancelledTurnReplays`, `RetriedCallStaysOpen`).
* Removing an artifact deletes the whole project key of its id, even if other artifacts are listed
  there (`RemovalIsRebuildIffUnnamed`, `SharedNameExample`). Retrieval does not notice, because the
  entity index still lists what was lost (`LookupIsScan`).
* The adapter cache says equal keys give equal adapters. The date is part of the prompt and not of
  the key (`SameKeySameAdapter`, `DateIsPartOfThePrompt`). It says nothing about the order of MCP
  servers, which follows the list (`ServerOrderFollowsList`).
* The archive treats a record that names the user `""` as naming nobody, the report does not
  (`ResetConserves`, `BlankReplyAppears`). `/reset` loses what other users spent in the session
  (`ResetLosesOthers`, `GroupResetLosesBob`), and compaction makes kept turns count twice
  (`KeptTurnsCountTwice`, `CompactionDoublesUsage`).
* The compaction trigger counts turn ids of system messages, the kept window does not (`EnoughIff`,
  `SystemTurnsTriggerInVain`). Compaction lowers the token figure that triggered it only if the turn
  with the latest usage is not kept (`FigureSurvivesIff`, `FigureSurvivesExample`). Its summary can
  take the number of a record that is kept (`CompactedLog`, `AutoCanUnorder`). Every compacted
  log is reported as broken at the next start (`CompactionNeedsRecovery`).

## Assumptions

* JSON is a pair of functions with `loads(dumps(j)) == j` for every value whose objects name no key
  twice, and `loads` gives only such values; `JsonCodec.LosslessIsPossible` shows that there are such
  functions. Floats are numbered, with one NaN; integers have no more digits than Python converts, and
  values are nested no deeper than its recursion limit. The MAC is one function whose output is
  hexadecimal; hashing of ledger keys is injective where a lemma says so.
* A call to the task store does not suspend, which is true of the file system store; `_worker_loop`
  is nevertheless cut around its listing.
* `str.lower`, prices, the chat id in a session id and file names made from user ids are parameters.
* A send call that fails has delivered nothing; that no chunk is delivered twice rests on this.
* Timestamps of memory artifacts are numbers in the order of their ISO strings; scores are numbers in
  the order of the scores; costs are exact.

## Model

| member | source | states |
|---|---|---|
| `McpConnection.Connection.BeginEnsure` | src/assistant/extensions/mcp/toolsets.py:321-327 | with the lock held: the live session is reused; otherwise an attempt starts iff it is forced or the backoff window has passed |
| `McpConnection.Connection.NoteConnectFailed` | src/assistant/extensions/mcp/toolsets.py:330-346 | a failed attempt moves the failure count and the retry time as specified, and raises exactly when the delay overflows a float |
| `McpConnection.Connection.NoteConnected` | src/assistant/extensions/mcp/toolsets.py:347-350 | a successful attempt resets the backoff and makes its session the live one |
| `McpConnection.Connection.DetachFailed` | src/assistant/extensions/mcp/toolsets.py:354-361 | a reconnect detaches the failed session only if it is still the live one, and then must close it |
| `McpConnection.Connection.Reconfigure` | src/assistant/extensions/mcp/toolsets.py:284-306 | the live session is parked behind the older ones, the backoff is reset, and a closer is wanted iff something is parked and nothing is in flight |
| `McpConnection.Connection.TakeAll` | src/assistant/extensions/mcp/toolsets.py:278-282 | stop takes the live session and all parked ones, in this order |
| `McpConnection.Connection.NextStale` | src/assistant/extensions/mcp/toolsets.py:308-311 | a parked session is popped for closing iff one is there and nothing is in flight |
| `McpConnection.Connection.BeginOp` | src/assistant/extensions/mcp/toolsets.py:381-381 | an operation that has a session is counted as in flight |
| `McpConnection.Connection.EndOp` | src/assistant/extensions/mcp/toolsets.py:402-407 | the last operation to end starts closing parked sessions |
| `McpRuns.StepPlaces` | src/assistant/extensions/mcp/toolsets.py:276-407 | every step moves a session between places or enters it into exactly one |
| `McpRuns.StepKeepsLock` | src/assistant/extensions/mcp/toolsets.py:321-322 | whoever is in `__aenter__` holds the lock, and then no session is live |
| `McpRuns.StepKeepsInflight` | src/assistant/extensions/mcp/toolsets.py:384-406 | the in-flight counter is the number of operations between its two updates, at every step |
| `McpRuns.StepKeepsBackoff` | src/assistant/extensions/mcp/toolsets.py:325-348 | retry time, failure count and clock stay in step through every interleaving |
| `McpSafety.SessionOwnership` | src/assistant/extensions/mcp/toolsets.py:276-407 | in every reachable state every session ever entered is in exactly one of: live, parked, handed to one closer, closed |
| `McpSafety.NeverLiveAgain` | src/assistant/extensions/mcp/toolsets.py:284-311 | a session that was detached never becomes the live one again |
| `McpSafety.StopLeavesNothingOpen` | src/assistant/extensions/mcp/toolsets.py:276-282 | after a stop that gets the lock while no operation and no `start` runs, nothing is live or parked any more, and once all tasks have ended every session ever entered is closed, whatever reconfigures, closers and other stops come between |
| `McpSafety.StopDrains` | src/assistant/extensions/mcp/toolsets.py:276-282 | an idle connection can be stopped: the lock and one close per session end it |
| `McpSafety.DisplacedSessionStaysOpen` | src/assistant/extensions/mcp/toolsets.py:289-291 | a session displaced by reconfigure is neither closed nor handed to a closer while an operation that was run on it is in flight, running or reconnecting, unless a stop took it |
| `McpSafety.ParkedSessionsHaveACloser` | src/assistant/extensions/mcp/toolsets.py:300-311 | while a session is parked an operation is in flight or a closer is scheduled or running, if every reconfigure ran inside the event loop |
| `McpSafety.CallsAreNotReplayed` | src/assistant/extensions/mcp/toolsets.py:373-378 | a tool call is run at most once and a listing at most twice, on two different sessions |
| `McpSafety.LiveSessionIsCurrentIffNotRaced` | src/assistant/extensions/mcp/toolsets.py:287-291 | the live session was built from the current settings iff no reconfigure ran during its `__aenter__` |
| `McpSafety.RacedReconfigureExample` | src/assistant/extensions/mcp/toolsets.py:284-328 | a run after which an idle connection keeps a session with outdated settings |
| `McpSafety.BackoffBound` | src/assistant/extensions/mcp/toolsets.py:321-337 | the n-th consecutive unforced failure comes at least 5(2^(n-1)-1) seconds (n <= 7) or 315+300(n-7) seconds after the first, for n <= 1025 |
| `McpSafety.UnforcedBackoffBound` | src/assistant/extensions/mcp/toolsets.py:321-337 | the same bound in every run in which no operation loses its session |
| `McpSafety.BackoffStopsGrowing` | src/assistant/extensions/mcp/toolsets.py:333-337 | for every n > 1025 there is a run that misses that bound, because the delay overflows and the retry time stays |
| `McpProgress.LiveSessionIsUsed` | src/assistant/extensions/mcp/toolsets.py:378-384 | an operation that gets the lock while a session is live is counted and runs on it |
| `McpProgress.NewSessionIsUsed` | src/assistant/extensions/mcp/toolsets.py:347-384 | so does one whose own connection attempt succeeds |
| `McpProgress.GivesUpIff` | src/assistant/extensions/mcp/toolsets.py:378-380 | an operation ends without having run iff it was told that there is no session |
| `McpProgress.ResultEndsIt` | src/assistant/extensions/mcp/toolsets.py:402-407 | a result, or a second loss, ends the operation and takes it out of the count |
| `McpProgress.LossReconnects` | src/assistant/extensions/mcp/toolsets.py:385-393 | a first lost session sends the operation to the reconnect, still in flight |
| `McpProgress.ReconnectDetaches` | src/assistant/extensions/mcp/toolsets.py:354-359 | the reconnect detaches and closes the failed session if it is still live, else leaves it alone |
| `McpProgress.ClosedThenConnects` | src/assistant/extensions/mcp/toolsets.py:359-361 | after the close it connects |
| `McpProgress.ReconnectIsForced` | src/assistant/extensions/mcp/toolsets.py:361-361 | and does so whatever the backoff says |
| `McpProgress.ReconnectedListingRuns` | src/assistant/extensions/mcp/toolsets.py:393-403 | a listing that comes back with a session runs on it, a call does not run again, and without a session both end |
| `McpProgress.AttemptsIff` | src/assistant/extensions/mcp/toolsets.py:325-327 | without a live session an unforced attempt starts iff the retry time has come, and else the caller is told so |
| `McpProgress.BackoffIs` | src/assistant/extensions/mcp/toolsets.py:331-335 | the delays are 5, 10, 20, 40, 80, 160 and then 300 seconds |
| `McpProgress.BoundIs` | src/assistant/extensions/mcp/toolsets.py:331-335 | what the bound on a streak comes to in seconds |
| `McpProgress.FailureDelays` | src/assistant/extensions/mcp/toolsets.py:330-336 | a failed attempt is counted and sets the retry time, up to the 1024th |
| `McpProgress.SuccessClears` | src/assistant/extensions/mcp/toolsets.py:347-350 | a successful one clears both |
| `McpProgress.CloserCloses` | src/assistant/extensions/mcp/toolsets.py:308-311 | a closer takes the latest parked session while nothing is in flight |
| `McpProgress.StopTakes` | src/assistant/extensions/mcp/toolsets.py:278-282 | stop takes over the live session and the parked ones, in this order |
| `McpProgress.ReconfigureIs` | src/assistant/extensions/mcp/toolsets.py:284-306 | reconfigure replaces the settings, clears the backoff and parks the live session |
| `McpProgress.CallRuns` | src/assistant/extensions/mcp/toolsets.py:363-407 | a run in which a call runs once |
| `McpProgress.ListingRunsTwice` | src/assistant/extensions/mcp/toolsets.py:363-407 | a run in which a listing loses its session and runs again on a new one |
| `Coordinator.DelegationCoordinator.ReapFinishedInflight` | src/assistant/subagents/coordinator.py:808-816 | exactly the entries of workers that are done leave the table |
| `Coordinator.DelegationCoordinator.SpawnPending` | src/assistant/subagents/coordinator.py:340-350 | the listed delegations that are not in the table get workers, in order, while slots last |
| `Coordinator.DelegationCoordinator.BeginTask` | src/assistant/subagents/coordinator.py:354-395 | the first stretch of a worker: cancelled or missing task, unknown backend, or RUNNING and the backend started |
| `Coordinator.DelegationCoordinator.HandleCancellation` | src/assistant/subagents/coordinator.py:436-454 | a cancelled worker records CANCELLED if it was asked for and FAILED otherwise, once |
| `Coordinator.DelegationCoordinator.CancelTask` | src/assistant/subagents/coordinator.py:281-290 | cancel either waits for a live worker after flagging it, or returns None or a settled record |
| `Coordinator.DelegationCoordinator.ResumeCancel` | src/assistant/subagents/coordinator.py:290-306 | after the worker has ended the record is forced terminal and the request forgotten |
| `Coordinator.DelegationCoordinator.RecoverInflightTasks` | src/assistant/subagents/coordinator.py:560-570 | RUNNING delegations of the previous process become FAILED, every other record stays as it is |
| `CoordinatorRuns.StepKeepsInv` | src/assistant/subagents/coordinator.py:337-482 | every step keeps: one live worker per task, the table knows all live workers, started backends have left PENDING, the limit holds |
| `CoordinatorSafety.NoDoubleRun` | src/assistant/subagents/coordinator.py:337-352 | in every run, crashes and stale listings included, a backend is started at most once per task id |
| `CoordinatorSafety.WorkerLimit` | src/assistant/subagents/coordinator.py:339-350 | the table and the set of live workers never exceed the worker limit |
| `CoordinatorSafety.SemaphoreNeverBlocks` | src/assistant/subagents/coordinator.py:354-355 | a worker that begins always finds the semaphore free |
| `CoordinatorSafety.CancelSettles` | src/assistant/subagents/coordinator.py:263-306 | in every run `cancel_task` returns None or a terminal record, wherever the cancellation lands |
| `CoordinatorSafety.CancelNeverHangs` | src/assistant/subagents/coordinator.py:285-289 | on an orderly run a waiting canceller can always go on, and stopping a running backend records CANCELLED |
| `CoordinatorFinality.FinalIffNotAtRisk` | src/assistant/subagents/coordinator.py:337-482 | in every reachable state a terminal record is final (no continuation changes it or starts its backend) iff no worker that can still write it is alive or about to be created from the list |
| `CoordinatorFinality.TerminalIsForever` | src/assistant/subagents/coordinator.py:361-482 | a record that became terminal on an orderly run is never changed and its backend not started, whatever happens afterwards |
| `CoordinatorOutcomes.StatusTable` | src/assistant/subagents/coordinator.py:263-482 | each step writes exactly the statuses the table gives: who may set RUNNING, COMPLETED, FAILED and CANCELLED, and when; nothing else of a record changes |
| `CoordinatorOutcomes.TerminalIff` | src/assistant/subagents/coordinator.py:281-284 | a task is settled unless it is PENDING or RUNNING |
| `CoordinatorOutcomes.CompletedMeansSucceeded` | src/assistant/subagents/coordinator.py:459-482 | in every run a task is COMPLETED only if its backend was executing and succeeded |
| `CoordinatorOutcomes.StartRecovers` | src/assistant/subagents/coordinator.py:560-570 | after a start no delegation is RUNNING: those that were have FAILED |
| `CoordinatorOutcomes.CrashForgets` | src/assistant/subagents/coordinator.py:76-93 | a crash ends the workers and the callers, and leaves the store as it was |
| `CoordinatorOutcomes.BackendStartsIff` | src/assistant/subagents/coordinator.py:361-404 | a worker that begins starts its backend iff it records RUNNING |
| `CoordinatorOutcomes.OutcomeThenCallback` | src/assistant/subagents/coordinator.py:405-482 | the outcome is recorded before the callback, and the worker ends after it |
| `CoordinatorOutcomes.CancelCallIs` | src/assistant/subagents/coordinator.py:281-306 | `cancel_task` answers None, a settled record, or waits for the live worker it has flagged |
| `CoordinatorOutcomes.CancelReturns` | src/assistant/subagents/coordinator.py:290-306 | and then answers what the store says, settled |
| `CoordinatorOutcomes.ShutdownCancelsAll` | src/assistant/subagents/coordinator.py:95-106 | a stop that loses patience cancels every worker |
| `CoordinatorOutcomes.ReapIs` | src/assistant/subagents/coordinator.py:808-816 | reaping forgets exactly the ended workers and leaves a slot for each free place |
| `CoordinatorOutcomes.SpawnsInOrder` | src/assistant/subagents/coordinator.py:343-350 | all listed delegations get a worker, or the first ones while slots last |
| `CoordinatorSafety.CancelAnswerStays` | src/assistant/subagents/coordinator.py:302-306 | on an orderly run what a canceller was told is still what the store says |
| `CoordinatorSafety.ReapBeforeResumeRunsCancelledTask` | src/assistant/subagents/coordinator.py:290-302 | not orderly (a): reaping between a worker's end and its canceller's resumption runs a task answered CANCELLED |
| `CoordinatorSafety.StaleListingRunsCancelledTask` | src/assistant/subagents/coordinator.py:342-350 | not orderly (b): cancelling between listing and spawning runs a task answered CANCELLED |
| `CoordinatorSafety.DrainLosesCancellation` | src/assistant/subagents/coordinator.py:818-823 | not orderly (c): cancelling while the loop drains is overwritten by COMPLETED |
| `RecordBuilder.NewMessagesToSessionRecords` | src/assistant/agent/session_record_builder.py:30-143 | the loop builds, message by message, text, calls and real results, with the usage on the first text only |
| `RecordBuilder.AppendMessage` | src/assistant/agent/session_record_builder.py:52-141 | one message: an assistant record iff it has text parts, then its calls; or its stored returns |
| `RecordBuilder.AppendCalls` | src/assistant/agent/session_record_builder.py:89-113 | one record per call, arguments in any representation |
| `RecordBuilder.AppendResults` | src/assistant/agent/session_record_builder.py:116-141 | one record per return that is neither retried nor a skipped memory result |
| `RecordBuilder.BuildAppend` | src/assistant/agent/session_record_builder.py:49-86 | building distributes over concatenation; the usage goes to the first text of the whole |
| `RecordBuilder.ParseResultStable` | src/assistant/agent/message_converters.py:147-172 | a stored result is an object, and printing and parsing it again gives it back, whatever the tool returned |
| `RecordContents.ResultIsStored` | src/assistant/agent/message_converters.py:147-172 | an object is stored as it is, anything else alone in an object: a list as "results", the rest as "result", text that is not JSON as a string |
| `RecordContents.NothingIsLost` | src/assistant/agent/session_record_builder.py:89-141 | every call and every kept return has its record, with id, name, arguments or result |
| `RecordContents.NothingIsInvented` | src/assistant/agent/session_record_builder.py:52-141 | every record comes from a message and carries the id of the turn |
| `RecordContents.PlainTextIsReadBack` | src/assistant/agent/session_record_builder.py:116-141 | the text of a return that is not JSON can be read back from its record |
| `RecordContents.SaidComesFirst` | src/assistant/agent/session_record_builder.py:60-113 | what was said comes before the calls of a response |
| `RecordContents.SaidIs` | src/assistant/agent/session_record_builder.py:60-70 | it is the texts without outer space, with a space between them |
| `StringLaws.StripIs` | src/assistant/agent/session_record_builder.py:57-57 | stripping takes away all white space at both ends and nothing else |
| `StringLaws.JoinIs` | src/assistant/agent/session_record_builder.py:57-57 | joined parts have the separator between them |
| `RecordContents.UsageIsOnFirstText` | src/assistant/agent/session_record_builder.py:70-86 | the usage of a turn is on its first text record and on no other |
| `Replay.RecordsToMessages` | src/assistant/core/orchestrator/payloads.py:280-383 | the index-driven loop computes the grouping |
| `Replay.NextGroup` | src/assistant/core/orchestrator/payloads.py:285-382 | one turn of the outer loop: the first group's message and its length |
| `Replay.GroupCalls` | src/assistant/core/orchestrator/payloads.py:297-305 | the inner loop over tool calls stops at the first other record and hides memory calls |
| `Replay.GroupResults` | src/assistant/core/orchestrator/payloads.py:348-372 | the inner loop over results keeps one block per id, in order of first appearance |
| `ReplayLaws.EveryCallIsReplayed` | src/assistant/core/orchestrator/payloads.py:292-341 | for any log the tool_use blocks of all messages are exactly the non-memory calls in log order |
| `ReplayLaws.ResultRunIsReplayed` | src/assistant/core/orchestrator/payloads.py:342-380 | for any maximal run of results: one message, one block per id, and it carries the last result of the run |
| `ReplayLaws.MemoryNeverAppears` | src/assistant/core/orchestrator/payloads.py:256-277 | no message shows a memory tool, neither calls nor results |
| `ReplayLaws.MessagesSplit` | src/assistant/core/orchestrator/payloads.py:285-382 | grouping distributes over concatenation wherever the cut does not split a group |
| `ReplayContents.PlainRecordIsShown` | src/assistant/core/orchestrator/payloads.py:285-331 | user messages and summaries show their text as the user's, other records without calls show nothing |
| `ReplayContents.CallIsShown` | src/assistant/core/orchestrator/payloads.py:256-272 | a call shows its arguments as parsed, or none |
| `ReplayContents.ResultIsShown` | src/assistant/core/orchestrator/payloads.py:351-369 | a result shows as compact JSON, with whether there was an error |
| `ReplayContents.UsesAre` | src/assistant/core/orchestrator/payloads.py:297-305 | a run of calls shows those of other tools than the memory tool |
| `ReplayContents.SaidAndCalledIsShown` | src/assistant/core/orchestrator/payloads.py:291-322 | a text and the calls after it are one message |
| `ReplayContents.CalledIsShown` | src/assistant/core/orchestrator/payloads.py:332-347 | calls without a text are a message of their own |
| `ReplayOrder.StorageKeepsOrder` | src/assistant/agent/session_record_builder.py:52-141 | the records of a turn show exactly its calls and real results in their order |
| `ReplayOrder.ReplayKeepsOrder` | src/assistant/core/orchestrator/payloads.py:280-383 | when no id is answered twice, replay shows every shown call and result in log order |
| `Cancellation.InjectCancellationResults` | src/assistant/agent/pydantic_ai_agent.py:87-123 | the loops append one synthetic request with a return for each call without one, or nothing |
| `Cancellation.CollectCompleted` | src/assistant/agent/pydantic_ai_agent.py:94-99 | the ids of all returns, retried ones included |
| `Cancellation.CollectPending` | src/assistant/agent/pydantic_ai_agent.py:101-109 | the calls whose ids are not completed, in order |
| `Cancellation.InjectCompletes` | src/assistant/agent/pydantic_ai_agent.py:88-93 | injection keeps a turn well-formed and leaves no call without a return |
| `Cancellation.CancelledTurnReplays` | src/assistant/agent/pydantic_ai_agent.py:88-93 | in the messages built from a cancelled turn every tool_use has exactly one, later, tool_result iff no call other than a memory call was retried |
| `Cancellation.RetriedCallStaysOpen` | src/assistant/agent/pydantic_ai_agent.py:95-99 | a turn with a retried call: nothing is injected and its tool_use is replayed without a result |
| `Cancellation.InjectOnce` | src/assistant/agent/pydantic_ai_agent.py:111-112 | injecting twice adds nothing |
| `ReplayContents.InjectedIs` | src/assistant/agent/pydantic_ai_agent.py:87-123 | what is injected says of exactly the calls without a return that they were cancelled |
| `ReplayContents.CompletedAre` | src/assistant/agent/pydantic_ai_agent.py:94-99 | a call counts as completed if any return of the turn has its id |
| `History.LlmMessagesToHistory` | src/assistant/agent/message_converters.py:83-144 | the loop converts message by message |
| `History.UserHistory` | src/assistant/agent/message_converters.py:92-113 | tool results win over text, the last text block wins, blank prompts vanish |
| `History.AssistantHistory` | src/assistant/agent/message_converters.py:114-143 | texts are joined in front of the calls, inputs that are not objects become no arguments, empty messages vanish |
| `ReplayContents.PlainIsHistory` | src/assistant/agent/message_converters.py:90-144 | plain text is a prompt or a response, unless it is blank |
| `ReplayContents.ResultsAreHistory` | src/assistant/agent/message_converters.py:90-120 | results become one request with a return for each, in order |
| `ReplayContents.ResultsWin` | src/assistant/agent/message_converters.py:90-120 | text beside results is ignored |
| `ReplayContents.LastTextIsPrompt` | src/assistant/agent/message_converters.py:90-120 | without results the last text is the prompt |
| `ReplayContents.RepliesAre` | src/assistant/agent/message_converters.py:120-144 | texts become one, with an empty line between them, and calls follow |
| `RoundTrip.TurnRoundTrip` | src/assistant/agent/message_converters.py:83-144 | storing, grouping and converting any turn gives back the canonical form of its glued messages: stripped text, parsed arguments, results as compact objects |
| `RoundTrip.GluedRecords` | src/assistant/agent/session_record_builder.py:51-141 | messages without records can be dropped, and neighbours nothing stored separates can be joined, without changing a record |
| `RoundTrip.GluedIsSeparate` | src/assistant/core/orchestrator/payloads.py:285-382 | after gluing every message has records and no two neighbours fall into one group |
| `RoundTrip.LastReturnsAre` | src/assistant/core/orchestrator/payloads.py:348-372 | of the results of a request exactly one is left for each call it answers, the last |
| `RoundTrip.SessionRoundTrip` | src/assistant/core/orchestrator/payloads.py:280-383 | the same for any session with prompts and turn ends: turns neither merge nor get lost |
| `RoundTrip.NormalTurnRoundTrip` | src/assistant/agent/session_record_builder.py:51-141 | a turn in normal form comes back from the log exactly as it went in |
| `RoundTrip.CanonicalIsNormal` | src/assistant/agent/message_converters.py:83-144 | what replay gives back of a message is in normal form and its own canonical form |
| `MemoryIndex.BuildIndexes` | src/assistant/memory/indexing/indexer.py:29-63 | the rebuild loop posts every artifact and sorts recency once at the end |
| `MemoryIndex.MemoryIndexer.Build` | src/assistant/memory/indexing/indexer.py:72-84 | the index files hold a rebuild of the scanned artifacts |
| `MemoryIndex.MemoryIndexer.AddArtifact` | src/assistant/memory/indexing/indexer.py:119-159 | the files hold the old indexes with the artifact posted and recency sorted again |
| `MemoryIndex.MemoryIndexer.RemoveArtifact` | src/assistant/memory/indexing/indexer.py:161-214 | nothing without index files; otherwise the id leaves its lists, empty lists go, and the whole project key of the id goes |
| `IndexLaws.BuiltIs` | src/assistant/memory/indexing/indexer.py:29-63 | a rebuild lists at every key the ids in scan order, holds no empty list and sorts recency |
| `IndexLaws.AddingIsRebuilding` | src/assistant/memory/indexing/indexer.py:131-153 | adding to an index equal to a rebuild gives the rebuild with the artifact at the end, lists and order included |
| `IndexLaws.RemovingIsRebuilding` | src/assistant/memory/indexing/indexer.py:174-196 | removing from the type, tag and entity indexes gives the rebuild without the artifact |
| `IndexLaws.ProjectRemoval` | src/assistant/memory/indexing/indexer.py:198-208 | the project index is that of a rebuild after a removal iff no other artifact has an entity that lowers to the removed id |
| `RecencyOrder.SortIsStable` | src/assistant/memory/indexing/indexer.py:55-55 | the recency sort is descending and keeps equal stamps in order |
| `RecencyOrder.StableSortIsUnique` | src/assistant/memory/indexing/indexer.py:55-55 | there is only one stable sort, so the way of sorting does not matter |
| `RecencyOrder.SortIncrementally` | src/assistant/memory/indexing/indexer.py:155-157 | appending to the sorted list and sorting again is sorting everything at once |
| `RecencyOrder.FilterSorted` | src/assistant/memory/indexing/indexer.py:210-212 | filtering the sorted list is sorting the filtered one |
| `IndexRuns.RunIsRebuild` | src/assistant/memory/indexing/indexer.py:119-214 | after any sequence of adds and removes without shared names all five indexes are those of a rebuild of the live artifacts |
| `IndexRuns.RunAgreesBesidesProjects` | src/assistant/memory/indexing/indexer.py:119-214 | after any sequence of adds and removes four of the five indexes are those of a rebuild |
| `IndexRuns.RemovalIsRebuildIffUnnamed` | src/assistant/memory/indexing/indexer.py:161-214 | one removal leaves exactly the indexes of a rebuild iff no other artifact names the removed id |
| `IndexRuns.SharedNameExample` | src/assistant/memory/indexing/indexer.py:199-201 | a fact that names a project loses its project key when the project is removed |
| `IndexRuns.RunKeepsProjects` | src/assistant/memory/indexing/indexer.py:198-208 | whatever names are shared, the project index lists nothing wrong and every project under its own id |
| `Retrieval.GatherCandidates` | src/assistant/memory/retrieval/service.py:29-57 | the lookup loops compute the union of the hits, or the 50 most recent |
| `Retrieval.LookupIsScan` | src/assistant/memory/retrieval/service.py:29-57 | after any run of updates, shared names included, lookup finds exactly what a linear scan of the live artifacts selects, or the 50 most recent if that is nothing |
| `Retrieval.LookupIsScanOnBuilt` | src/assistant/memory/retrieval/service.py:29-57 | the same on indexes built from any list of artifacts, equal ids included |
| `RecentCandidates.FallbackIsNewest` | src/assistant/memory/retrieval/service.py:50-55 | when a query selects nothing, the candidates are the 50 newest artifacts, or all |
| `RecentCandidates.RecentIdsAre` | src/assistant/memory/retrieval/service.py:50-55 | the fallback takes the ids of the first 50 entries, none of an entry without |
| `RecentCandidates.SelectedAreCandidates` | src/assistant/memory/retrieval/service.py:29-49 | otherwise they are exactly the artifacts the query selects |
| `Retrieval.BuildRecencyRank` | src/assistant/memory/retrieval/service.py:60-68 | each id gets the place of its last entry |
| `CategoryCaps.CapCategories` | src/assistant/memory/retrieval/service.py:186-194 | the loop keeps, in order, the first `cap` of each type |
| `CategoryCaps.CapIsMet` | src/assistant/memory/retrieval/service.py:186-194 | each type keeps the smaller of its number and its cap, none for a cap below one |
| `CategoryCaps.CapKeepsBest` | src/assistant/memory/retrieval/service.py:183-194 | on sorted scores nothing dropped outscores what is kept of its type |
| `Compaction.CalculateSessionTotalTokens` | src/assistant/core/orchestrator/token_usage.py:13-46 | the loop finds the latest usage |
| `CompactionLaws.TokensAreLatest` | src/assistant/core/orchestrator/token_usage.py:18-36 | the figure is that of the usage record with the highest sequence, or 0 without one |
| `Compaction.OrderedRecentTurnIds` | src/assistant/core/orchestrator/service.py:116-134 | the loop collects the last turns by first appearance, synthetic and empty ids left out |
| `CompactionLaws.RecentTurnsSize` | src/assistant/core/orchestrator/service.py:119-123 | the kept turns are turns of the records, as many as asked for or all |
| `CompactionLaws.KeptTurnsAreLast` | src/assistant/core/orchestrator/service.py:119-123 | every turn that is not kept appeared before every kept one |
| `Compaction.SessionFile.CompactSession` | src/assistant/core/orchestrator/service.py:888-1015 | the stored log is replaced by system messages, old summaries, the new one and the kept records, or stays as it is |
| `Compaction.CompactRecords` | src/assistant/core/orchestrator/service.py:912-1004 | what a compaction makes of the records read, and when it declines |
| `CompactionLaws.EnoughIff` | src/assistant/core/orchestrator/service.py:874-953 | a compaction summarises at least `min_turns_before_compact` whole turns and keeps exactly `keep_recent_turns` iff there are enough turns without those that only system messages and summaries carry |
| `CompactionLaws.TriggerLeavesEnough` | src/assistant/core/orchestrator/service.py:874-886 | so an automatic trigger leaves enough if system messages have no turn ids of their own |
| `CompactionLaws.SummarisedTurns` | src/assistant/core/orchestrator/service.py:930-943 | the exact number of turns that are summarised |
| `CompactionLaws.SystemTurnsTriggerInVain` | src/assistant/core/orchestrator/service.py:876-886 | with turn ids of their own on system messages the trigger can fire with nothing to summarise, and the compaction declines |
| `CompactionLaws.CompactedLog` | src/assistant/core/orchestrator/service.py:967-1004 | the new log is the old head, the summary and the kept records unchanged; it is in order iff the first kept record comes after the summary's number |
| `CompactionLaws.CompactionStaysTidy` | src/assistant/core/orchestrator/service.py:967-1004 | a compaction that has more turns of chat than it keeps leaves the log in order |
| `CompactionLaws.AutoStaysTidy` | src/assistant/core/orchestrator/service.py:876-1004 | so does every automatic one if system messages have no turn ids of their own |
| `CompactionLaws.AutoCanUnorder` | src/assistant/core/orchestrator/service.py:876-1004 | otherwise an automatic compaction can give its summary the number of a reply that it keeps |
| `CompactionContents.TriggersIff` | src/assistant/core/orchestrator/service.py:866-886 | it triggers iff it is enabled and the token figure and the number of real turns suffice |
| `CompactionContents.KeptOrSummarised` | src/assistant/core/orchestrator/service.py:930-943 | conversation is kept if its turn is a kept one and summarised otherwise |
| `CompactionContents.DeclinesIff` | src/assistant/core/orchestrator/service.py:915-965 | it declines at the limit unless on demand, with nothing to summarise, or without a summary |
| `CompactionContents.NewLogHolds` | src/assistant/core/orchestrator/service.py:976-1004 | the new log holds what it kept, and the new summary with its text |
| `CompactionContents.NewLogIs` | src/assistant/core/orchestrator/service.py:976-1004 | in the order system messages, summaries, the new one, kept records |
| `CompactionRuns.AutosAreApart` | src/assistant/core/orchestrator/service.py:876-886 | between two automatic compactions at least `min_turns_before_compact` turns are new, whatever happens between them, less the turns that only system messages carry |
| `CompactionRuns.SummariesAreBounded` | src/assistant/core/orchestrator/service.py:915-922 | a log never holds more than `max_compactions` summaries beyond those made on demand |
| `CompactionRuns.FigureIsThatOfKept` | src/assistant/core/orchestrator/token_usage.py:35-46 | after any compaction the token figure is that of the kept records, so 0 if no turn is kept |
| `CompactionRuns.FigureIsRead` | src/assistant/store/filesystem/session.py:65-78 | reading and sorting the new log does not change the figure |
| `CompactionRuns.FigureSurvivesIff` | src/assistant/core/orchestrator/token_usage.py:35-46 | compaction leaves the figure with the record it came from iff the turn of that record is kept |
| `CompactionRuns.FigureSurvivesExample` | src/assistant/core/orchestrator/service.py:869-886 | a log whose figure triggers a compaction that leaves it unchanged |
| `LogOrder.SortMembers` | src/assistant/store/filesystem/session.py:65-78 | reading a log sorts it without losing or adding a record |
| `Recovery.CreateSyntheticTerminals` | src/assistant/store/facade.py:219-247 | one terminal per incomplete turn, in sorted order, numbered on |
| `Recovery.CreateOrphanToolResults` | src/assistant/store/facade.py:249-294 | one interrupted result per orphan call id, in sorted order, numbered on, or none |
| `Recovery.CollectTurns` | src/assistant/store/facade.py:187-192 | the turns of a log and those that have ended |
| `Recovery.CollectCalls` | src/assistant/store/facade.py:252-263 | the last call of each non-empty id and the ids with a result |
| `RecoveryScan.RepairFile` | src/assistant/store/facade.py:182-215 | one session: terminals, then results on the log read again; issues and repairs are equal |
| `RecoveryScan.StoreFacade.ScanSessions` | src/assistant/store/facade.py:175-217 | all listed sessions are repaired, and as many issues are reported as repaired |
| `RecoveryScan.StoreFacade.ScanTasks` | src/assistant/store/facade.py:296-307 | exactly the readable, unsettled tasks whose time is up become EXPIRED, and they are counted |
| `RecoveryScan.ExpiringIs` | src/assistant/store/filesystem/task.py:204-222 | a scan counts the tasks that are neither settled nor within their time |
| `RecoveryScan.TasksExpireOnce` | src/assistant/store/filesystem/task.py:204-232 | scanning the tasks again at the same time changes nothing |
| `RecoveryScan.StoreFacade.RunRecoveryScan` | src/assistant/store/facade.py:136-173 | sessions and tasks are repaired; the status is HEALTHY iff nothing was wrong with either, and never DEGRADED |
| `RecoveryLaws.ScanCompletes` | src/assistant/store/facade.py:175-217 | after one scan every turn id has a terminal and every non-empty call id a result |
| `RecoveryLaws.ScanIsFixpoint` | src/assistant/store/facade.py:175-217 | nothing is added iff the log is complete, so a second scan finds nothing |
| `RecoveryLaws.RepairsAreCounted` | src/assistant/store/facade.py:195-213 | a scan adds one record per incomplete turn and one per orphan call id |
| `RecoveryLaws.ScanKeepsOrder` | src/assistant/store/facade.py:227-244 | the old log is an unchanged prefix and sequence numbers still strictly increase |
| `RecoveryLaws.RepairedFileReads` | src/assistant/store/filesystem/session.py:126-151 | repairs appended to a file in any order are read after everything else |
| `RepairContents.RepairsAre` | src/assistant/store/facade.py:219-294 | each repair ends a turn that had no end, or answers the last call with an id without result, as interrupted |
| `RepairContents.CompleteIff` | src/assistant/store/facade.py:187-270 | a log needs no repair iff every turn has an end and every call with an id a result |
| `RecoveryScan.ScanTwice` | src/assistant/store/facade.py:175-217 | scanning all sessions again changes and reports nothing |
| `RecoveryScan.CompactionNeedsRecovery` | src/assistant/store/facade.py:187-194 | a compacted log is never complete: its new summary's turn has no terminal, so the next startup repairs it |
| `Capabilities.ExpandNestedCapabilities` | src/assistant/core/capabilities/loader.py:75-101 | the depth-first walk with a shared list terminates on any graph and computes the expansion |
| `Capabilities.Expansion.Expand` | src/assistant/core/capabilities/loader.py:88-96 | one step of the walk, on the shared list and set |
| `AdapterCache.ExpansionIsReachability` | src/assistant/core/capabilities/loader.py:75-101 | the expansion lists each id once, and exactly the ids reachable from the enabled ones |
| `AdapterCache.SameKeySameActive` | src/assistant/agent/adapter_cache.py:104-107 | the active set depends on the set of enabled ids only |
| `Capabilities.CollectMcpServerIds` | src/assistant/core/capabilities/loader.py:104-121 | the loops collect server ids, first seen first |
| `Capabilities.CollectEnabledToolIds` | src/assistant/agent/tools/registry.py:141-160 | the loops collect the enabled bindings of the active capabilities |
| `Capabilities.GetAgentTools` | src/assistant/agent/tools/registry.py:163-186 | the known tools among them, in sorted order |
| `Capabilities.ComposeSystemPrompt` | src/assistant/agent/system_prompt_builder.py:26-43 | base, date and the non-blank prompts of the active capabilities in sorted order |
| `AdapterCache.SameKeySameAdapter` | src/assistant/agent/adapter_cache.py:18-23 | two lists with one key give the same prompt, the same tools in the same order and the same set of MCP servers |
| `AdapterContents.ActiveIs` | src/assistant/agent/tools/registry.py:94-110 | active is what is reachable and not denied, each once |
| `AdapterContents.ListedFirst` | src/assistant/core/capabilities/loader.py:88-96 | a capability is listed before those nested in it |
| `AdapterContents.ToolsAre` | src/assistant/agent/tools/registry.py:141-186 | the tools are exactly the known ones an active capability binds as enabled, in sorted order |
| `AdapterContents.PromptIs` | src/assistant/agent/system_prompt_builder.py:26-43 | the prompt is base, date, and the prompt of every active capability that has one, in sorted order |
| `AdapterContents.ServersAre` | src/assistant/core/capabilities/loader.py:104-121 | the servers are those mentioned, each once, first mentioned first |
| `AdapterContents.AdapterIs` | src/assistant/agent/adapter_cache.py:66-91 | what the cache stores: the prompt, the tools and the servers of the capabilities active in its world |
| `StringLaws.AtMostIs` | src/assistant/agent/tools/registry.py:174-174 | strings are sorted by their first difference, a beginning first |
| `AdapterCache.ServerOrderFollowsList` | src/assistant/agent/adapter_cache.py:104-107 | the order of the MCP servers does follow the list, which the key does not hold |
| `AdapterCache.DateIsPartOfThePrompt` | src/assistant/agent/system_prompt_builder.py:37-38 | an adapter built on another day differs, exactly because of its date |
| `AdapterCache.TurnAdapterCache.GetOrBuild` | src/assistant/agent/adapter_cache.py:66-91 | while nothing else changes a cached adapter is as good as a new one, and other entries stay |
| `Numerals.ParseInverts` | src/assistant/channels/telegram/session_resume_callbacks.py:21-21 | reading a printed hexadecimal number gives it back |
| `NumeralLaws.PrintedHasValue` | src/assistant/channels/telegram/session_resume_callbacks.py:21-23 | a printed number has its value in positional notation |
| `NumeralLaws.PrintedIs` | src/assistant/channels/telegram/session_resume_callbacks.py:21-23 | it is printed in lower-case digits without leading zeros |
| `NumeralLaws.ParsesLikePython` | src/assistant/channels/telegram/session_resume_callbacks.py:50-54 | upper case, prefixes and single underscores are read, other things are not |
| `NumeralLaws.SignsAre` | src/assistant/channels/telegram/session_resume_callbacks.py:51-54 | a sign is read, and white space around the number ignored |
| `ResumeCallback.SignedVerifies` | src/assistant/channels/telegram/session_resume_callbacks.py:18-63 | a signed payload verifies to its id, colons included, iff its age is between 0 and 3600 seconds |
| `ResumeCallback.AcceptedIffAuthentic` | src/assistant/channels/telegram/session_resume_callbacks.py:38-63 | verification accepts exactly the fresh payloads that carry the MAC for this chat, session and time |
| `ResumeCallback.RaisesIff` | src/assistant/channels/telegram/session_resume_callbacks.py:38-63 | verification raises iff a fresh payload carries a signature that is not ASCII |
| `ResumeCallback.MessagesAreDistinct` | src/assistant/channels/telegram/session_resume_callbacks.py:22-23 | distinct chat, session and time never share a signed message |
| `Ledger.FilesystemIdempotencyLedger.CheckAndRegister` | src/assistant/store/filesystem/idempotency.py:91-108 | a duplicate iff a readable record is stored whose time to live is not over; otherwise a new record is written |
| `Ledger.FilesystemIdempotencyLedger.Register` | src/assistant/store/filesystem/idempotency.py:72-89 | raises for a live record, otherwise writes |
| `Ledger.FilesystemIdempotencyLedger.CleanupExpired` | src/assistant/store/filesystem/idempotency.py:110-128 | removes exactly the expired and corrupt files, in any order, and counts them |
| `Ledger.LedgerIsSimple` | src/assistant/store/filesystem/idempotency.py:60-108 | with injective hashing and a clock that does not run back, any interleaving answers like a map from keys to last accepts |
| `Ledger.FreshLedgerIsSimple` | src/assistant/store/filesystem/idempotency.py:60-108 | so does a ledger that starts with no files, or corrupt ones only, compared with the empty map |
| `Ledger.CleanupIsUnobservable` | src/assistant/store/filesystem/idempotency.py:110-128 | leaving out all cleanups changes no answer |
| `Ledger.LedgerAcceptsAreApart` | src/assistant/store/filesystem/idempotency.py:60-62 | two accepts of a key are at least the first one's time to live apart |
| `Ledger.DuplicateIff` | src/assistant/store/filesystem/idempotency.py:60-108 | a request is a duplicate iff its key was accepted and the time to live of the last accept is not over |
| `Ledger.CollisionIsDuplicate` | src/assistant/store/filesystem/idempotency.py:34-36 | keys with the same hash answer for one another |
| `Usage.UsageStatsService.ArchiveSessionUsage` | src/assistant/channels/telegram/usage.py:122-171 | the archive file gets a line per attributed record with usage, or stays as it is |
| `Usage.UsageStatsService.BuildUsageResponse` | src/assistant/channels/telegram/usage.py:200-271 | the nested loops sum the current session, today and this month over live sessions and archive |
| `UsageContents.CountsFor` | src/assistant/channels/telegram/usage.py:136-164 | for whom a reply counts, in the report and in the archive, with which tokens and cost |
| `UsageContents.CountsNowhere` | src/assistant/channels/telegram/usage.py:143-150 | replies without tokens count nowhere |
| `UsageContents.TurnUserIs` | src/assistant/channels/telegram/usage.py:57-65 | a turn belongs to the last user its messages name |
| `UsageContents.BelongsIff` | src/assistant/channels/telegram/usage.py:44-54 | a session counts for the user of its chat and for every user its messages name |
| `UsageContents.TotalAdds` | src/assistant/channels/telegram/usage.py:225-271 | totals add up the lines of the days in the window |
| `UsageContents.WindowsAre` | src/assistant/channels/telegram/usage.py:225-271 | today is one day, the month all days from its first on |
| `UsageLaws.ArchiveThenReplace` | src/assistant/channels/telegram/usage.py:122-171 | archiving a session and giving it new records moves the totals by what the new records report plus the records that name an empty user |
| `UsageLaws.ResetConserves` | src/assistant/channels/telegram/usage.py:100-106 | archive and clear leave the user's tokens and costs unchanged iff no counted record names an empty user in a turn of the user |
| `UsageLaws.BlankReplyAppears` | src/assistant/channels/telegram/usage.py:140-140 | a record that names "" as its user, in the user's turn, enters the totals only with the archive |
| `UsageLaws.ResetLosesOthers` | src/assistant/channels/telegram/usage.py:132-140 | for another user the totals drop by what the cleared session reported for them |
| `UsageLaws.GroupResetLosesBob` | src/assistant/channels/telegram/usage.py:132-140 | in a session of two users the reset by one takes the other's tokens out of the totals |
| `CompactionUsage.KeptTurnsCountTwice` | src/assistant/core/orchestrator/service.py:939-1004 | after any compaction the totals are the old ones and once more what the turns it keeps report, blank records apart |
| `CompactionUsage.CompactionDoublesUsage` | src/assistant/core/orchestrator/service.py:967-975 | an automatic compaction after which the user is shown twice the tokens |
| `Egress.SplitText` | src/assistant/channels/telegram/egress.py:244-259 | chunks concatenate to the text, are at most 4096 long and non-empty if it is, and each ends behind the last newline in reach, or is full |
| `Egress.FindLastNewline` | src/assistant/channels/telegram/egress.py:253-253 | the last newline in a range, or -1 |
| `Egress.Send` | src/assistant/channels/telegram/egress.py:67-197 | under any failures the first chunks are delivered in order without repeats, the markup goes with the last chunk, success and the error are characterised exactly, and calls are at most chunks plus attempts |

## Left out

- Task cancellation and timeouts of the tasks that use an MCP connection; `_close` always ends.
- The admin route that cancels tasks and the expiry of tasks: they write the task store behind the coordinator.
- The re-check for CANCELLED between RUNNING and `backend.execute`: nothing runs between the two store calls, so it never fires.
- How many tasks a backend may use, budgets, logs and the relay of questions of delegated tasks.
- Message ids, event ids, model ids and timestamps of session records; the store skips records whose event id it already has.
- `args_as_json_str` of the agent library is known from the comment at its call only: empty arguments print as `{}`, strings stay as they are.
- Unicode: `str.strip` and `int(s, 16)` know ASCII white space and digits only, and lengths are in characters.
- Individually missing or corrupt memory index files: the five files are present or absent together.
- The degraded fallback of `retrieve`, BM25 and the weights of the scores.
- Locking and concurrent writers of one session: a compaction or a scan is one step.
- An adapter build that raises, and changes of the manifests on disk while adapters are cached.
- The recursion limit of Python in `_expand`.
- Waiting times between send attempts, audit logging, and errors that are not Telegram API errors.
- Archive lines that cannot be parsed; two user ids that give the same file name share an archive.
