# RxyCode appserver: a verified model of its concurrent cores

The appserver of RxyCode is single-threaded asyncio code (and, for capability
jobs, threads under one lock).  Its guarantees live in small state machines that
must hold over every interleaving of the code between two awaits.  This project
models those machines and proves what they promise, for every run.

Each component is written twice.  A *machine* module gives the state, one step
function per atomic stretch, an invariant, and theorems over all runs.  An
*object* module gives the class as the program writes it, with its fields, loops
and early returns, and proves every method equal to the step of the machine.  What
the steps come to is written down apart from both, in terms of the fields, the inputs
and the outputs alone (who may do what, when a state is entered, how a request ends,
what a run can lead to), and proved of the machine: for the larger machines in a
module of its own (`PermissionRules`, `AgentOutcomes`, `PipeOutcomes`, `BusRules`,
`CoalescerRules`), for the others in the "Exactly" lemmas and the methods' contracts.

| machine | object | source |
|---|---|---|
| `Segments`, `Coalescing`, `CoalescerRules` | `StreamCoalescers` | `appserver/jsonrpc.py` |
| `WorkerOutput` | `WorkerOutput.PromptOutput` | `appserver/agent_worker.py`, `appserver/tui.py` |
| `RpcPipes`, `PipeOutcomes` | `AsyncRpcPipes` | `appserver/agent_host.py` |
| `EventLog`, `EventBus`, `BusRules` | `EventLog.AppendOnlyLog`, `EventBus.EventBus` | `appserver/eventbus.py` |
| `AgentLifecycle`, `AgentOutcomes` | `AgentTasks` | `appserver/agent_task.py` |
| `ToolSlots`, `TokenLedger` | `AgentRuntimes` | `appserver/agent_runtime.py` |
| `Permissions`, `PermissionRules` | `PermissionStores` | `appserver/permission.py` |
| `CapabilityJobs` | `CapabilityServices` | `appserver/capabilities.py` |
| `Rewinding` | `RewindServices` | `appserver/review.py`, `appserver/checkpoint_rewind.py` |
| `DiffScan`, `DiffRight` | `DiffScan.FindingsFromDiff` | `appserver/review.py` |

`TextLines` models Python's `str.splitlines`, `Utf8` the UTF-8 codec, `Text` holds string
helpers (split, strip, decimal numerals), `Wrappers` an option type.

Time-outs, cancellations, provider behaviour, exceptions and the choice of which
coroutine or thread runs next are events of a run; clocks and fresh ids are
parameters of the event.  `dafny verify dfyconfig.toml` checks everything.

## Main results

* **Stream coalescer.** Whatever mixes of pushes, flushes, sink failures,
  cancellations, hard time-outs and zombie flushes occur, every pushed piece is in
  exactly one bucket, the sink sees strictly increasing numbers, no text is lost,
  repeated or reordered, and a zombie does nothing.  The threshold is on the length of
  the pending text in UTF-8.
* **Worker output.** The FIFO of batched messages equals the per-token direct
  writes after merging neighbours, exactly when no token came from a delegated agent
  and no plain message was queued over buffered stream text, be it one that skips the
  barrier or one whose barrier is skipped because a flush holds the lock; after the
  wind-down all stream text precedes the response.
* **RPC pipe.** A future is settled once, and only by a response with its own id; when
  and with which error it fails is exact; the first failure, and a completed close, leave
  nothing pending for good.  A close that was asked for is taken up in every run and can
  be brought to its end from every state.
* **Event bus.** The log is the longest fitting suffix of everything published;
  replay is exact and resumable, and among publishes it hands out a gap-free prefix
  of what there was when it began, or raises; a subscription is complete unless it
  dropped, and a replay from its first gap repairs it.  All of it holds with publishes
  that raise after they took a number.
* **Agents.** Every interleaving follows the transition table with at most one live
  main task; which step enters which state, starts or stops a main task, calls the target
  and publishes is exact, and no operation is ever stuck.  An agent is done exactly when
  its target returned and its done event is published, and a cancelled one is announced,
  after its main task has ended, unless the caller of its interrupt was cancelled.
* **Tool slots, budgets.** Permits are conserved per semaphore; without nested
  blocks every waiter is served by grants and releases alone; an agent keeps within
  its quota until its next spawn exactly when its open blocks are all of its latest
  spawn, or the session is no larger than the quota; ledgers add up to the first
  occurrence of every call, each on the ledger its agent's budget names; the overrun bound
  of the budget is exact.
* **Permissions.** In every reachable state a call is allowed exactly when the written
  rules allow it, profile by profile; an approval is honoured at most once, exactly when it
  covers the call, and never after it is revoked; a restart keeps the policy and the spent
  audit and nothing else.
* **Capability jobs, rewinds.** One terminal status, exactly the one its winner's outcome
  calls for, and one tool finish with that status; every job can end; a checkpoint restores
  exactly the storable workspaces, and a refused rewind changes nothing.
* **Diff scanner.** Over the text as `splitlines` cuts it, what the scanner reports on
  a line is right exactly when the line is read: one piece of a flagged line is flagged,
  with the line's severity and shown text, and the last header before it plus the counted
  pieces since give its line number; no piece of another line is flagged.  The findings
  are right when all lines are read, and only then if nothing is invented or nothing
  goes unheard.

## Where the program does less than it says

Each of these is a theorem with the exact condition (one direction of it where "Left
out" says so) or a run that reaches it, most are both.  The model follows the code.

* A heartbeat or steering echo is queued without the ordering barrier
  (`appserver/agent_worker.py:570-574`), so it can overtake buffered stream text
  that the barrier comment (`appserver/agent_worker.py:896-899`) orders before
  every plain notification: `WorkerOutput.RefinesExactlyWhenNothingOvertaken`,
  `WorkerOutput.HeartbeatOvertakesToken`.
* The direct path marks the text of delegated agents as intermediate
  (`appserver/tui.py:244`, the contract of
  `tests/test_appserver/test_answer_last_contract.py`); the coalescer's sink never does
  (`appserver/agent_worker.py:924-942`), so with coalescing their text looks like the
  main agent's: `WorkerOutput.RefinesExactlyWhenNothingOvertaken`,
  `WorkerOutput.DelegatedTokenLosesMark`, `WorkerOutput.DelegatedTokenIsUnmarked`.
* The barrier is skipped while a flush holds the lock, and the comment there
  (`appserver/jsonrpc.py:212-217`) holds the lock for one loop iteration.  On Python
  3.10 and 3.11 `wait_for` acquires it in a task of its own, so a notification can
  run between the acquire and the batch and overtake the text:
  `WorkerOutput.EmitOvertakesTokenInFlush`.  With the lock free at every emit and no
  direct write the order holds: `WorkerOutput.LockFreeRefines`.
* A response whose id is the JSON value `true` (or the float of an id) settles a
  request, because ids are looked up as dictionary keys: `RpcPipes.IdsThatMatch`,
  `RpcPipes.TrueAnswersFirstRequest`.  Section 5 of the JSON-RPC 2.0 specification
  asks for the same value as the request's id.
* The pipe is documented to fail fast when no reader is left
  (`appserver/agent_host.py:450-451`); after a confirmed shutdown and end of file it
  still accepts requests that nobody can answer: `RpcPipes.AcceptedWithoutReader`,
  `RpcPipes.StrandedRequest`.
* Publishing an event object again while it waits in a queue changes the number its
  reader sees: `EventBus.PublishKeepsQueuesFaithful`, `EventBus.RepublishMisnumbers`.
* A payload that cannot be copied makes the publish raise after it took a number
  (`appserver/eventbus.py:127`, `appserver/eventbus.py:254-255`).  With that number
  missing before the first retained event a replay is refused as rolled over although
  nothing was lost: `EventLog.RefusalMeansLoss`, `EventBus.RaisedPublishRefusesReplay`.
* A publish before the scan of a replay has ended makes its next page raise, because
  the deque changed under the generator: `EventLog.ReplayAmongPublishes`,
  `EventLog.PublishBreaksReplay`.
* When the caller of an interrupt is itself cancelled while the main task winds down,
  the agent is cancelled and its cancelled event is never published:
  `AgentLifecycle.CancelledIsAnnounced`, `AgentLifecycle.CutShortInterruptIsSilent`.
* A resumed target that answers its cancellation with a `TypeError` is called once
  more in a cancelled agent: `AgentLifecycle.LateCallIsTheFallback`,
  `AgentLifecycle.FallbackCanRunAfterCancelled`.  The targets `AgentRuntime` passes
  have the same fallback inside (`appserver/agent_runtime.py:449-455`), so there a
  first main task can call the user's target again as well; the model sees the
  wrapped target as one call.
* A failed checkpoint write makes `interrupt` raise and leave the agent as it was,
  where its comment (`appserver/agent_task.py:172-174`) announces FAILED:
  `AgentLifecycle.InterruptNeverFails`, `AgentLifecycle.FailedInterruptLeavesRunning`.
  FAILED is entered exactly when the target raises: `AgentLifecycle.FailsWithItsTarget`.
* Stopping and respawning an agent while a tool block is open gives it a fresh
  quota on top of the slots it holds: `ToolSlots.QuotaHoldsExactly`,
  `ToolSlots.OneIncarnationEnds`, `ToolSlots.RespawnExceedsQuota`.  Nested tool
  blocks of one agent can wait for their own permit: `ToolSlots.NestedUseDeadlocks`.
* Token calls of different runs share a dedup key exactly when one run id continues
  the other with a colon and the head of the other's task id:
  `TokenLedger.KeyTextCollides`.
* A profile chosen after a preset was applied does not become active:
  `Permissions.SetProfileTakesEffect`, `Permissions.ReadOnlyAfterPresetIsIgnored`.
  An honoured approval does not end the reject streak of the unnamed session:
  `Permissions.HonouredEndsStreak`, `Permissions.UnnamedStreakSurvives`.
* A cancelled job's audit row says cancelled only if what ran timed out or ended with
  a capability error: `CapabilityJobs.CancelledJobAudit`,
  `CapabilityJobs.CancelledJobAuditedCompleted`.
* A second rewind does not hide what was typed after the first one:
  `Rewinding.RewindTruncatesExactly`, `Rewinding.SecondRewindKeepsLaterItem`.  A
  rewind of the code alone hides the conversation too: `Rewinding.CodeRewindHidesItem`.
* The diff is split at form feeds and other line boundaries inside a line
  (`appserver/review.py:188`), so a flagged line can lose its marker and a context line
  can be counted twice: `DiffRight.ScanIsRight`, `DiffRight.LineReadExactly`,
  `DiffRight.BrokenIsMissed`, `DiffRight.FormFeedHidesMarker`,
  `DiffRight.FormFeedShiftsLine`.  A boundary at the end of a line does no harm:
  `DiffRight.TrailingFormFeedIsRead`.  A piece that reads as the header of its own file
  restarts the count, which matters only if something flagged follows:
  `DiffRight.OwnHeaderShiftsLine`, `DiffRight.SilentTailIsHarmless`.  Two errors can
  cancel: `DiffRight.TwoWrongsAgree`.
* An added line that begins with two plus signs is not counted, so later findings of
  the hunk name the wrong line: `DiffRight.UnbrokenScanIsRight`,
  `DiffRight.PlusPlusShiftsLine`.  A path that contains " b/" is misread:
  `DiffScan.NameIsRead`.

## Model

| member | source | states |
|---|---|---|
| Segments.MergeSegments | appserver/jsonrpc.py:282-289 | the merging loop computes Merge of the batch |
| Segments.MergeIsSettled | appserver/jsonrpc.py:284-289 | after merging no two neighbours could still be merged, so progress is never joined and same-kind stream text always is |
| Segments.ProgressStandsAlone | appserver/jsonrpc.py:284-289 | a progress segment is never joined to what comes before it |
| Segments.MergeOfSettled | appserver/jsonrpc.py:284-289 | merging a merged batch changes nothing |
| Segments.MergeAgain | appserver/jsonrpc.py:277-289 | merging requeued merged segments together with later pushes gives what one merge of all pushes gives |
| Segments.MergeKeepsBytes | appserver/jsonrpc.py:362-378 | merging keeps the length of the whole text in UTF-8, which the threshold counter relies on |
| Segments.BytesAreEncoded | appserver/jsonrpc.py:172 | the byte count of a batch is the length of the encoding of its whole text |
| Utf8.DecodesExactly | appserver/jsonrpc.py:172 | the strict decoder of section 3 of RFC 3629 gives back every encoded text, and accepts no bytes but encodings |
| Utf8.FormsOfEachLength | appserver/jsonrpc.py:172 | one character of each of the four lengths, byte by byte |
| Segments.TilesMerge | appserver/jsonrpc.py:277-295 | after any merge the segments still tile the push history: consecutive pushes of one kind, none split, missing or twice |
| Segments.TilesIncreasing | appserver/jsonrpc.py:351-360 | segments that tile the history have strictly increasing leading numbers |
| Segments.TilesTexts | appserver/jsonrpc.py:277-289 | segments that tile the history spell the pushed text, in order |
| Segments.TilesHoldOnce | appserver/jsonrpc.py:277-289 | each push lies in exactly one segment of a tiling, of its own kind |
| Segments.SortIsNoOp | appserver/jsonrpc.py:278 | sorting by number leaves an increasing batch as it is |
| Segments.SortExactly | appserver/jsonrpc.py:278 | the sort puts the numbers in order, loses and doubles nothing, and keeps the order of equal numbers |
| CoalescerRules.PushExactly | appserver/jsonrpc.py:163-174 | a push goes behind everything pending with the next number, one more than there were pushes before |
| Coalescing.StepKeepsInv | appserver/jsonrpc.py:163-478 | every event of every interleaving keeps: buckets tile the history, fates match the undecided list, the byte count is exact, the job in the sink owns the lock |
| Coalescing.Run | appserver/jsonrpc.py:163-478 | every state of every run meets the invariant |
| Coalescing.ExactlyOneBucket | appserver/jsonrpc.py:277-469 | in every reachable state each pushed piece is in exactly one of delivered, undecided, in flight, backlog, pending; an undecided one is on record, an in-flight one is the segment in the sink |
| Coalescing.TextConserved | appserver/jsonrpc.py:277-378 | text handed over, in the backlog and pending, concatenated, is the pushed text |
| Coalescing.SinkOrder | appserver/jsonrpc.py:170-378 | the sink sees strictly increasing numbers over all flushes and retries; the pending batch is already sorted; its byte counter is the length of its text in UTF-8 |
| Coalescing.RunExtends | appserver/jsonrpc.py:297-469 | over any run what reached the sink is only appended to, and a settled fate is final: nothing is handed over twice |
| Coalescing.ZombieIsHarmless | appserver/jsonrpc.py:300-347 | a flush aborted by a hard time-out hands over, requeues and records nothing when it resumes |
| Coalescing.FlushDrains | appserver/jsonrpc.py:180-348 | one flush into a working sink from any reachable state with the lock free leaves every push delivered or undecided |
| Coalescing.SubmitIsDrive | appserver/jsonrpc.py:240-347 | the synchronous barrier treats its segments exactly as an asynchronous flush whose sink calls return at once |
| Coalescing.DriveKeepsInv | appserver/jsonrpc.py:298-348 | the sink loop keeps the invariant from any position, for any mix of returns and failures |
| Coalescing.HardTimeoutKeepsInv | appserver/jsonrpc.py:452-469 | a hard time-out moves the segment in the sink to undecided and the backlog to the front of the batch, once |
| Coalescing.FailureKeepsInv | appserver/jsonrpc.py:316-347 | a failing or cancelled sink call records its segment and requeues exactly the rest |
| CoalescerRules.FlagsExactly | appserver/jsonrpc.py:180-469 | which steps mark the coalescer degraded and terminated: a hard time-out both, a lock wait that gives up, a dying ticker and a final flush that gives up on a segment the first; a restart clears them |
| CoalescerRules.BarrierExactly | appserver/jsonrpc.py:201-239 | the barrier leaves everything alone if and only if the sink is asynchronous, nothing is pending, the coalescer is terminated or a flush holds the lock |
| CoalescerRules.LockExactly | appserver/jsonrpc.py:184-199 | the lock is taken exactly when neither a flush that is to take the batch nor one in the sink holds it, and waited for in vain only while one does |
| StreamCoalescers.StreamCoalescer.constructor | appserver/jsonrpc.py:70-110 | a new coalescer is the initial state of the machine |
| StreamCoalescers.StreamCoalescer.PushSync | appserver/jsonrpc.py:163-174 | the push step; a flush is due if and only if the pending text takes at least 1024 bytes in UTF-8 |
| StreamCoalescers.StreamCoalescer.RequeueUnsent | appserver/jsonrpc.py:362-378 | unsent segments go back in front with their numbers, and the length of their text in UTF-8 is counted again |
| StreamCoalescers.StreamCoalescer.GiveUp | appserver/jsonrpc.py:316-347 | the failing segment becomes undecided and the unsent rest is requeued |
| StreamCoalescers.StreamCoalescer.SinkLoop | appserver/jsonrpc.py:297-348 | the loop over the merged batch is the machine's Drive |
| StreamCoalescers.StreamCoalescer.Flush | appserver/jsonrpc.py:193-348 | taking, sorting, merging and sending the batch is the flush step; the lock was taken in an earlier step |
| StreamCoalescers.StreamCoalescer.SinkReturns | appserver/jsonrpc.py:299-348 | the stretch after an awaited sink call, zombie or not, is the resume step |
| StreamCoalescers.StreamCoalescer.RestoreBacklog | appserver/jsonrpc.py:466-468 | the backlog of an aborted flush is requeued once and emptied |
| StreamCoalescers.StreamCoalescer.FinalFlushTimesOut | appserver/jsonrpc.py:452-469 | the hard time-out is the time-out step |
| StreamCoalescers.StreamCoalescer.SubmitAll | appserver/jsonrpc.py:240-275 | the barrier's loop, its failure branch included, is the machine's Submit |
| StreamCoalescers.StreamCoalescer.FlushSubmitSync | appserver/jsonrpc.py:201-275 | the barrier is the submit step; into a working sink with the lock free it hands over the merged batch and empties it |
| WorkerOutput.CanonCongruence | appserver/jsonrpc.py:284-289 | merging a prefix first does not change the merge of the whole message sequence |
| WorkerOutput.CanonOfBatch | appserver/agent_worker.py:924-942 | a batch of tokens written one by one or merged gives the same sequence up to merging |
| WorkerOutput.MergeIsCanon | appserver/jsonrpc.py:284-289 | the coalescer's merge is the merge of the messages it is sent as |
| WorkerOutput.FifoRefinesDirectPath | appserver/agent_worker.py:895-944 | with no plain message queued over buffered text and no token of a delegated agent, queue plus buffer equal the direct writes after merging neighbours, in every run |
| WorkerOutput.RefinesExactlyWhenNothingOvertaken | appserver/agent_worker.py:895-944 | for runs of non-empty tokens the queue equals the direct writes up to merging if and only if no token is of a delegated agent and no plain message was queued while stream text was buffered, whether it skips the barrier or finds a flush holding the lock |
| WorkerOutput.LockFreeRefines | appserver/jsonrpc.py:201-226 | with no direct write and the flush lock free at every emit, nothing is overtaken, and the queue refines the direct writes if and only if no token is of a delegated agent |
| WorkerOutput.DelegatedTokenLosesMark | appserver/tui.py:241-270 | in every run with a token of a delegated agent the direct path carries the intermediate mark, the queue never does, and the two differ even after merging |
| WorkerOutput.DelegatedTokenIsUnmarked | appserver/agent_worker.py:924-942 | the run of one delegated token and one flush: nothing overtaken, the queued message unmarked |
| WorkerOutput.CanonKeepsUnmarked | appserver/jsonrpc.py:284-289 | merging neighbours of one kind and mark neither loses a mark nor adds one |
| WorkerOutput.BypassBreaksOrder | appserver/jsonrpc.py:219-225 | one plain message past the barrier over buffered text, for either reason, breaks the order for good, whatever follows |
| WorkerOutput.HeartbeatOvertakesToken | appserver/agent_worker.py:576-620 | the run token, heartbeat, flush shows the break |
| WorkerOutput.EmitOvertakesTokenInFlush | appserver/jsonrpc.py:184-225 | the run token, lock taken, emit, flush shows the break without any direct write |
| WorkerOutput.ResponseComesLast | appserver/agent_worker.py:1144-1206 | after the wind-down flush the queue holds all pushed text in order, and a response queued next comes after it |
| WorkerOutput.StepKeepsOutputOk | appserver/agent_worker.py:895-944 | every command keeps the coalescer healthy and the queued stream messages equal to the segments handed over |
| WorkerOutput.PromptOutput.Enqueue | appserver/agent_worker.py:924-944 | the sink appends one unmarked message per segment |
| WorkerOutput.PromptOutput.StreamToken | appserver/tui.py:241-442 | the token step: the push into the coalescer, and the marked message of the direct path |
| WorkerOutput.PromptOutput.EmitNotification | appserver/jsonrpc.py:201-275 | the barrier with its early return while a flush holds the lock, then the plain message: the emit step |
| WorkerOutput.PromptOutput.DrainStream | appserver/jsonrpc.py:226-275 | the barrier with the lock free: what is handed over goes into the queue, in order |
| WorkerOutput.PromptOutput.FlushStream | appserver/jsonrpc.py:193-348 | the flush from taking the batch on, with the worker's sink |
| WorkerOutput.PromptOutput.ScheduleWrite | appserver/agent_worker.py:570-574 | a write past the barrier: the direct-write step |
| RpcPipes.StepKeepsInv | appserver/agent_host.py:143-485 | every interleaving of callers, reader, writer, callbacks and close keeps the invariant |
| RpcPipes.RunKeepsInv | appserver/agent_host.py:143-485 | so does every run |
| RpcPipes.FateIsFinal | appserver/agent_host.py:379-406 | a settled future keeps its outcome through any step |
| RpcPipes.SettledOnce | appserver/agent_host.py:379-406 | and through any run: settled at most once |
| RpcPipes.AnsweredByOwnResponse | appserver/agent_host.py:379-399 | a pending future is answered by a step if and only if the step delivers a response without a method whose id matches its own |
| RpcPipes.DeliveryTouchesNothingElse | appserver/agent_host.py:379-406 | a delivered message changes no other future: worker calls, late, unknown and foreign responses settle nothing |
| RpcPipes.IdsThatMatch | appserver/agent_host.py:390 | exactly which id values match request n: n, its float, and for one and zero the booleans |
| RpcPipes.TrueAnswersFirstRequest | appserver/agent_host.py:379-399 | a run in which the id true answers request one |
| RpcPipes.NothingPending | appserver/agent_host.py:156-314 | a recorded failure, or the failing phase of close, means an empty table, no pending future and rejection of every method |
| RpcPipes.DeadForever | appserver/agent_host.py:143-314 | and that stays so in every continuation, with the first failure never replaced and no future changed |
| RpcPipes.DegradedMeansFailed | appserver/agent_host.py:143-261 | in every reachable state degraded holds exactly when a failure is recorded, and the teardown ran at most once |
| RpcPipes.WritesInOrder | appserver/agent_host.py:316-334 | what was written to the worker is the accepted requests in order, none missing in between |
| RpcPipes.StepsForward | appserver/agent_host.py:260-334 | failure, close and the reader's exit are never taken back, and a closed pipe writes nothing |
| RpcPipes.AcceptedWithoutReader | appserver/agent_host.py:160-422 | with no reader left a request is accepted if and only if the pipe is open without a failure and it is the shutdown call of a graceful shutdown, or the end of file was confirmed, or a cancelled reader has not been noticed |
| RpcPipes.NoReaderNoAnswer | appserver/agent_host.py:390-443 | with the reader gone no future is answered in any continuation |
| RpcPipes.StrandedRequest | appserver/agent_host.py:407-470 | a run in which such a request is accepted and pending on a healthy-looking pipe |
| PipeOutcomes.AcceptedExactly | appserver/agent_host.py:160-470 | a request is turned away, changing nothing, if and only if the pipe is closed, has failed, or is stopping and it is not the shutdown call; any other one is pending, in the table and queued |
| PipeOutcomes.QueueDrains | appserver/agent_host.py:316-334 | on an open pipe the writer alone gets every accepted request out, in the order of their numbers |
| PipeOutcomes.WrittenExactly | appserver/agent_host.py:325-334 | a step writes the next accepted request while the pipe is open, and nothing else |
| PipeOutcomes.FailsExactly | appserver/agent_host.py:190-443 | a pending request fails if and only if the reader or writer ends or is found to have ended badly, a line chokes the reader, or the teardown gets to it; an expected end of file fails it too, each with its own error |
| PipeOutcomes.BreaksExactly | appserver/agent_host.py:143-229 | the recorded failure is the first end of reader or writer that nobody asked for, and stays |
| PipeOutcomes.ConfirmedExactly | appserver/agent_host.py:173-399 | the shutdown is confirmed by the host or by the answer to a pending shutdown call; only the host stops the pipe and only the teardown closes it |
| PipeOutcomes.ReaderExactly | appserver/agent_host.py:190-443 | how the reader ends, and that a writer found dead on a pipe nobody stopped takes it along |
| PipeOutcomes.WriterExactly | appserver/agent_host.py:190-345 | the same for the writer, which also ends at the closing mark |
| PipeOutcomes.ForgottenExactly | appserver/agent_host.py:473-476 | a caller whose wait is over takes its own entry out of the table and no other |
| PipeOutcomes.CloseIsTakenUp | appserver/agent_host.py:231-258 | in any run that contains a close the teardown is scheduled or further, and never goes back |
| PipeOutcomes.CloseDrains | appserver/agent_host.py:260-305 | from every reachable state after that, the end of file and the writer working off its queue bring the teardown to its end: closed, nothing more written, nothing pending, every request turned away |
| AsyncRpcPipes.AsyncRpcPipe.constructor | appserver/agent_host.py:112-132 | a new pipe is the initial state |
| AsyncRpcPipes.AsyncRpcPipe.FailAllPending | appserver/agent_host.py:307-314 | the loop fails exactly the pending futures and empties both tables |
| AsyncRpcPipes.AsyncRpcPipe.TransitionFailed | appserver/agent_host.py:143-154 | only the first failure is recorded |
| AsyncRpcPipes.AsyncRpcPipe.Send | appserver/agent_host.py:461-470 | the request step |
| AsyncRpcPipes.AsyncRpcPipe.ReadLine | appserver/agent_host.py:379-443 | one decoded message: the deliver step, unhashable ids and a raising emit included |
| AsyncRpcPipes.AsyncRpcPipe.ReaderEnds | appserver/agent_host.py:407-422 | the end-of-file step |
| AsyncRpcPipes.AsyncRpcPipe.ReaderRaises | appserver/agent_host.py:423-443 | a reader error |
| AsyncRpcPipes.AsyncRpcPipe.WriterRaises | appserver/agent_host.py:338-345 | a writer error |
| AsyncRpcPipes.AsyncRpcPipe.OnReaderDone | appserver/agent_host.py:190-229 | the reader's done callback |
| AsyncRpcPipes.AsyncRpcPipe.OnWriterDone | appserver/agent_host.py:190-229 | the writer's done callback |
| AsyncRpcPipes.AsyncRpcPipe.FailRest | appserver/agent_host.py:270-288 | what the teardown does once the reader is gone |
| AsyncRpcPipes.AsyncRpcPipe.Advance | appserver/agent_host.py:100-485 | any step on the object is the machine's step, about which the rows above speak, and keeps its invariant |
| EventLog.RetainedIsLongestFittingSuffix | appserver/eventbus.py:119-137 | the retained log is the longest suffix of everything published that fits both limits or is a single entry |
| EventLog.TotalOfNext | appserver/eventbus.py:180-188 | an entry counts with the length of its four texts and 64 more |
| EventLog.RetainedIncremental | appserver/eventbus.py:127-137 | dropping from the front of the old window plus the new entry finds that suffix of the longer history |
| EventLog.AppendOnlyLog.Append | appserver/eventbus.py:119-137 | the copy that raises leaves the log alone; otherwise the rolling loop leaves the longest fitting suffix of the history and its exact byte sum, so the clamp at zero never acts |
| EventLog.AppendOnlyLog.IterFrom | appserver/eventbus.py:139-169 | the paging loop yields all retained entries after the cursor for every page size, or refuses |
| EventLog.ReplayIsExact | appserver/eventbus.py:139-169 | replay is refused exactly from cursors before the rollover point, and from any other yields exactly the published events with larger numbers, missing numbers or not |
| EventLog.RefusedExactly | appserver/eventbus.py:148-157 | a replay is refused if and only if the log keeps nothing or has rolled past what follows the cursor |
| EventLog.SinceIsSuffix | appserver/eventbus.py:159-169 | the events with larger numbers are all that were published from some point on, so a replay has no gap |
| EventLog.RefusalMeansLoss | appserver/eventbus.py:151-157 | a refused replay is one that has lost an event, for every cursor, if and only if no number is missing just before the first retained event |
| EventLog.ReplayResumes | appserver/eventbus.py:139-169 | resuming after any yielded event gives the rest of the same stream |
| EventLog.ReplayAmongPublishes | appserver/eventbus.py:139-169 | in any interleaving of publishes and pages, from an empty log too, a replay has handed out a gap-free prefix of the events after its cursor when it began, all of them when done, and its next page raises if and only if a publish came before its scan ended |
| EventLog.ReplayEnds | appserver/eventbus.py:158-169 | read on, every replay ends after finitely many pages, by raising exactly in that case |
| EventLog.PublishBreaksReplay | appserver/eventbus.py:128-169 | a run in which a publish after the first page makes the second raise |
| EventBus.MatchExactly | appserver/eventbus.py:209-226 | a pattern matches if and only if it is the catch-all, the agent's wildcard or the agent with the event's last segment |
| EventBus.DeadLetterReachesOnlyMonitors | appserver/eventbus.py:269-298 | a dead-lettered event reaches only catch-all subscriptions |
| BusRules.ServedExactly | appserver/eventbus.py:210-298 | an event is for the agent it is sent to, else for its own, and goes to the subscriptions to everything, to all of that agent, or to its events of that name, and to no other |
| BusRules.LastExactly | appserver/eventbus.py:225 | the last segment of a name is what follows its last slash |
| BusRules.ReceivesExactly | appserver/eventbus.py:269-283 | a receiver for an agent is a subscription to all of it or to one name of it; one to everything is none |
| BusRules.DeadLetterExactly | appserver/eventbus.py:256-267 | an event is a dead letter if and only if it is sent to one agent and nobody subscribes to that agent |
| BusRules.DeliveredExactly | appserver/eventbus.py:298-312 | a wanted event is queued while the queue holds fewer than 1024; a full queue is marked and keeps what it has |
| BusRules.PublishExactly | appserver/eventbus.py:248-256 | an oversized payload changes nothing, one that cannot be copied takes its number and no more, any other is in the history and with every subscription |
| EventBus.ActKeepsBusOk | appserver/eventbus.py:228-312 | every publish, subscription and read keeps every subscription's guarantee |
| EventBus.EveryRunIsOk | appserver/eventbus.py:228-312 | numbers grow, the log is the longest fitting suffix and every subscription is an ordered part of its matching events, in every run, raising publishes included |
| EventBus.NumbersAddUp | appserver/eventbus.py:253-255 | the numbers given out are as many as the published events and the publishes that raised in the log |
| EventBus.NumbersAreConsecutive | appserver/eventbus.py:253-255 | in a run without raising publishes the numbers are one, two, three and so on |
| EventBus.RaisedPublishRefusesReplay | appserver/eventbus.py:127-157 | a run whose log has lost nothing and refuses a replay from the start |
| EventBus.UndroppedIsComplete | appserver/eventbus.py:285-312 | a subscription that never dropped got every matching event since it began, in order |
| EventBus.ReplayRepairsDrops | appserver/eventbus.py:299-319 | what a dropping subscription got before its first drop, then the matching part of a replay from there, is the full matching stream while the log has not rolled past |
| EventBus.PublishKeepsQueuesFaithful | appserver/eventbus.py:254-300 | a publish, raising or not, leaves every queued event with its own number if and only if the published object is not waiting in a queue |
| EventBus.RepublishMisnumbers | appserver/eventbus.py:254-300 | a run that publishes one object twice, after which the first queued entry shows the second number |
| EventBus.EventBus.PublishEvent | appserver/eventbus.py:237-267 | the publish step, with rejection of oversized payloads, the number lost to a payload that cannot be copied, and the dead-letter verdict |
| EventBus.EventBus.HasTargetSubscriber | appserver/eventbus.py:269-283 | the scan finds whether some subscription targets the agent |
| EventBus.EventBus.DeliverTo | appserver/eventbus.py:285-312 | the fan-out loop delivers to every subscription or marks it dropped |
| EventBus.EventBus.SubscribeTo | appserver/eventbus.py:228-231 | the subscribe step |
| EventBus.EventBus.Unsubscribe | appserver/eventbus.py:233-235 | the unsubscribe step |
| AgentLifecycle.StepKeepsInv | appserver/agent_task.py:113-311 | every stretch between awaits of every operation and main task keeps the invariant |
| AgentLifecycle.RunFollowsTable | appserver/agent_task.py:48-248 | the states of every run are a path of the transition table, resume's direct write included |
| AgentLifecycle.OneMainTask | appserver/agent_task.py:132-214 | at most one main task is live in any reachable state, and a target call in a cancelled agent is only ever the fallback call |
| AgentLifecycle.DoneExactlyWhenPublished | appserver/agent_task.py:254-311 | in every reachable state the agent is DONE if and only if its done event is published |
| AgentLifecycle.FinishNeverWaits | appserver/agent_task.py:199-264 | while a main task is live nobody holds the condition over a suspension |
| AgentLifecycle.CancelledIsAnnounced | appserver/agent_task.py:181-193 | a cancelled agent has published its cancelled event, or an interrupt that waits for the main task still will, or the caller of that interrupt was cancelled; and exactly one of these |
| AgentLifecycle.CutShortForGood | appserver/agent_task.py:181-193 | after such a cancellation no continuation publishes the event or leaves CANCELLED |
| AgentLifecycle.CutShortInterruptIsSilent | appserver/agent_task.py:181-193 | a run that ends there |
| AgentLifecycle.InterruptNeverFails | appserver/agent_task.py:172-193 | an interrupt whose checkpoint cannot be written leaves state, main tasks and events alone, and no stretch of an interrupt enters any state but CANCELLED |
| AgentLifecycle.FailsWithItsTarget | appserver/agent_task.py:254-298 | in every reachable state a step enters FAILED if and only if the target of a running agent raises; no operation does |
| AgentOutcomes.DoneWithItsTarget | appserver/agent_task.py:254-311 | in every reachable state a step enters DONE if and only if the target of a running agent returns; the step ends the main task and publishes one done event |
| AgentOutcomes.EntersExactly | appserver/agent_task.py:113-311 | every way into every state, and no other; a checkpoint is loaded only in a paused or failed agent with no live main task |
| AgentOutcomes.MainsExactly | appserver/agent_task.py:113-311 | a main task starts exactly with RUNNING, is asked to stop exactly by a pause that has saved or an interrupt that cancels, and calls its target exactly when it starts unstopped or falls back after a TypeError |
| AgentOutcomes.PublishesExactly | appserver/agent_task.py:113-311 | which step publishes which event: each with its state, the cancelled event of an interrupt that waits with the end of the wait |
| AgentOutcomes.WaitsExactly | appserver/agent_task.py:135-217 | a suspended operation goes on exactly once the main task it stopped has ended or the condition is free, as it needs |
| AgentOutcomes.CancelledEventComesLast | appserver/agent_task.py:179-193 | in every reachable state in which the cancelled event is out no main task is live |
| AgentOutcomes.RefusedExactly | appserver/agent_task.py:135-171 | pause and interrupt are refused at once exactly in the wrong state, and then change nothing |
| AgentOutcomes.Unlock | appserver/agent_task.py:197-217 | the condition is held over a suspension only by a resume that loads its checkpoint, and can be given back without any other change |
| AgentOutcomes.OperationCanEnd | appserver/agent_task.py:113-217 | no operation is ever stuck: from every reachable state some run ends it in which no caller gives up |
| AgentOutcomes.SpawnStarts | appserver/agent_task.py:113-133 | a spawn of an idle agent can lead to RUNNING, its first main task and the started event |
| AgentOutcomes.PausePauses | appserver/agent_task.py:135-160 | a pause of any running agent can lead to PAUSED with no live main task and one paused event |
| AgentOutcomes.InterruptCancels | appserver/agent_task.py:162-195 | an interrupt of any running, paused or bootstrapping agent can lead to CANCELLED with no live main task and one cancelled event |
| AgentOutcomes.ResumeRestarts | appserver/agent_task.py:197-217 | a resume of any paused or failed agent without a live main task can lead to RUNNING with a new main task |
| AgentOutcomes.ReturnFinishes | appserver/agent_task.py:254-311 | a running agent whose main task nobody stops can get to DONE with one done event |
| AgentOutcomes.FirstMainIsDone | appserver/agent_task.py:254-275 | a run to DONE of a first main task |
| AgentOutcomes.ResumedMainIsDone | appserver/agent_task.py:283-311 | a run to DONE of a resumed main task |
| AgentLifecycle.FailedInterruptLeavesRunning | appserver/agent_task.py:175-180 | a run in which the agent goes on after such an interrupt |
| AgentLifecycle.EndPublishedOnce | appserver/agent_task.py:186-311 | done and cancelled events together number at most one, and the cancelled event implies the cancelled state |
| AgentLifecycle.LateCallIsTheFallback | appserver/agent_task.py:286-292 | a target call begins in a cancelled agent if and only if a resumed first call raised TypeError |
| AgentLifecycle.FallbackCanRunAfterCancelled | appserver/agent_task.py:181-292 | a run that gets there |
| AgentTasks.AgentTask.ResumeSpawn | appserver/agent_task.py:113-133 | the stretches of spawn |
| AgentTasks.AgentTask.ResumePause | appserver/agent_task.py:135-160 | the stretches of pause |
| AgentTasks.AgentTask.ResumeInterrupt | appserver/agent_task.py:162-195 | the stretches of interrupt |
| AgentTasks.AgentTask.ResumeResume | appserver/agent_task.py:197-214 | the stretches of resume, holding the condition over the load |
| AgentTasks.AgentTask.ResumeMain | appserver/agent_task.py:254-311 | the stretches of the main task, about whose ends FailsWithItsTarget and DoneWithItsTarget speak |
| AgentTasks.AgentTask.Advance | appserver/agent_task.py:113-311 | any step on the object is the machine's step and keeps its invariant |
| ToolSlots.StepKeepsInv | appserver/agent_runtime.py:205-310 | free permits plus holders is every semaphore's capacity and the registry is within its limit, after every spawn, stop, entry, grant, finish and cancellation |
| ToolSlots.SlotsConserved | appserver/agent_runtime.py:216-310 | the same for every run of a new runtime: no permit is lost, granted twice or released twice |
| ToolSlots.WaiterImpliesHolder | appserver/agent_runtime.py:299-310 | a waiter can be granted, or someone else holds the permit it waits for |
| ToolSlots.SomeUseMoves | appserver/agent_runtime.py:299-310 | with no nested blocks some block can always go on without a cancellation |
| ToolSlots.Drains | appserver/agent_runtime.py:165-310 | from every such state grants and finished blocks alone serve every waiter and bring every permit back |
| ToolSlots.NestedUseDeadlocks | appserver/agent_runtime.py:299-310 | a reachable state in which two nested blocks of one agent wait on each other |
| ToolSlots.QuotaHolds | appserver/agent_runtime.py:230-300 | an agent holds at most its quota while all its open blocks belong to its latest spawn |
| ToolSlots.OneIncarnationEnds | appserver/agent_runtime.py:205-267 | the only step that ends that is a spawn that registers the agent anew while a block of it is open |
| ToolSlots.QuotaHoldsExactly | appserver/agent_runtime.py:205-310 | with no nested blocks, no continuation before the next spawn of the agent exceeds its quota if and only if all its open blocks belong to its latest spawn or the session has no more slots than the quota |
| ToolSlots.WithinQuota | appserver/agent_runtime.py:205-310 | the bound holds in every continuation, nested blocks included |
| ToolSlots.RespawnExceedsQuota | appserver/agent_runtime.py:230-299 | a reachable state with two slots held on a quota of one |
| TokenLedger.ReplayChangesNothing | appserver/agent_runtime.py:347-351 | a call with a key seen before changes no ledger, whatever agent or amount it names |
| TokenLedger.LedgersAddUp | appserver/agent_runtime.py:347-357 | own ledgers plus the pool are the tokens of the first occurrence of each key text and of all unkeyed calls |
| TokenLedger.EachLedgerIsItsTally | appserver/agent_runtime.py:352-365 | each agent's ledger and the pool hold exactly the first occurrences booked on them |
| TokenLedger.KeyTextCollides | appserver/agent_runtime.py:348 | two different calls share a key text if and only if the attempts agree and one run id continues the other with a colon and the head of its task id |
| TokenLedger.LedgersCountCallsOnce | appserver/agent_runtime.py:331-357 | with run ids, or task ids, free of colons every (run, task, attempt) is counted exactly once |
| TokenLedger.UsageWithinBudget | appserver/agent_runtime.py:373-402 | at most q calls between check and booking, each booking at most the checked cap, keep the ledger within budget + (q - 1) * cap, whatever is booked on other ledgers or replayed |
| TokenLedger.BooksFollowActs | appserver/agent_runtime.py:331-402 | over those acts the books are exactly those of the calls booked, in order |
| TokenLedger.BoundIsReached | appserver/agent_runtime.py:373-402 | from any books with room for one call, some disciplined run reaches that bound |
| AgentRuntimes.AgentRuntime.constructor | appserver/agent_runtime.py:171-201 | a new runtime is the initial state of both machines |
| AgentRuntimes.AgentRuntime.Spawn | appserver/agent_runtime.py:196-265 | the spawn step; refused exactly for a registered id or a full registry; a new agent gets its quota, at least one, and its budget |
| AgentRuntimes.AgentRuntime.Stop | appserver/agent_runtime.py:269-288 | the stop step |
| AgentRuntimes.AgentRuntime.EnterSlot | appserver/agent_runtime.py:299-300 | a block queues for the semaphore its agent has now |
| AgentRuntimes.AgentRuntime.GrantSlot | appserver/agent_runtime.py:300-302 | the grant step, agent first and session second |
| AgentRuntimes.AgentRuntime.LeaveSlot | appserver/agent_runtime.py:303-310 | leaving at any point gives back exactly what the block has |
| AgentRuntimes.AgentRuntime.RecordTokenUsage | appserver/agent_runtime.py:331-357 | a call that repeats no earlier key text raises the shared counter if its agent's last accepted spawn had a budget of zero, else that agent's own entry, by its tokens and nothing else; a repeated one changes nothing |
| AgentRuntimes.AgentRuntime.TokenUsage | appserver/agent_runtime.py:359-365 | an agent with a budget of zero reports the first occurrences of all zero-budget calls, any other one its own |
| AgentRuntimes.AgentRuntime.CheckBudget | appserver/agent_runtime.py:373-402 | for a budget of zero a call passes if and only if the first occurrences of all zero-budget calls plus the estimate fit the session's budget, or there is none; for any other its own calls plus the estimate fit its own budget |
| Permissions.StepKeepsInv | appserver/permission.py:114-578 | every operation, restart included, keeps the invariant on approvals, audit, file, policy and streaks |
| Permissions.ReadOnlyAllowsNoWrite | appserver/permission.py:416-578 | in every reachable state with the read-only policy active no call is allowed anything but reading, whatever approval it brings |
| PermissionRules.VerdictExactly | appserver/permission.py:416-578 | in every reachable state a call is allowed if and only if it keeps to its workspace, automatic review may make it, and the approval it brings is open and given for it, or, bringing none, it only looks or the profile in force lets it |
| PermissionRules.RiskyCallByProfile | appserver/permission.py:526-568 | per profile, for a call that does more than look: the asking profile allows exactly what an approval covers; without one, read-only and asking refuse, the workspace profile wants a workspace or scope, the scoped one a grant that fits, full access passes |
| PermissionRules.AskingWaitsForApproval | appserver/permission.py:548-553 | while each risky action is asked for, nothing that does more than look passes without an honoured approval |
| PermissionRules.HonouredExactlyWhenApproved | appserver/permission.py:466-525 | an approval is honoured if and only if it is open, was given for the call in every respect, the call keeps to its workspace and automatic review may make it |
| PermissionRules.OverstepsExactly | appserver/permission.py:278-303 | automatic review oversteps if and only if it does more than look, wants to expand, wants a network the store lacks, or a root outside every writable one |
| PermissionRules.DecisionIsRecorded | appserver/permission.py:305-373 | a decision adds one row with what it was about, opens an approval if and only if it stands and is no trace, and counts on its session's streak, the third reject in a row interrupting |
| PermissionRules.TracedExactly | appserver/permission.py:389-414 | a call whose approval is not honoured is filed as one spent decision with its verdict, under its session or the shared one, and does nothing else |
| PermissionRules.RevokedExactly | appserver/permission.py:378-387 | a revoked approval is closed and its row marked, and everything else stays |
| PermissionRules.RevokedForGood | appserver/permission.py:378-525 | in every continuation of a run that revokes a given approval it is never honoured |
| PermissionRules.ProfileIsStored | appserver/permission.py:181-195 | a profile other than full access is stored with a new version and any grants that come along |
| PermissionRules.PresetIsSet | appserver/permission.py:222-240 | what each preset stores and what it only sets for this process; full access only once unlocked |
| PermissionRules.UnlockedByName | appserver/permission.py:206-220 | full access is unlocked exactly by somebody with a name |
| PermissionRules.GrantTakesEffect | appserver/permission.py:242-276 | a grant is stored behind the others with a new version, and while the scoped profile is in force lets every call through that it covers |
| PermissionRules.RestartKeepsPolicy | appserver/permission.py:94-159 | in every run a new process finds policy, grants and audit as they were with every row spent, or the defaults without a file, and no open approval, streak, preset or unlocking |
| Permissions.HonouredUnderItsProfile | appserver/permission.py:466-525 | before any preset an honoured approval was decided under the profile in force |
| Permissions.HonouredExactly | appserver/permission.py:466-525 | an approval is honoured if and only if it is open, covers the call in action, actor, session, turn, scope, project, version and time, and the guard and the auto-review rule pass |
| Permissions.DecideThenEvaluate | appserver/permission.py:305-525 | right after a decision its approval is honoured if and only if the decision allowed, was not a trace, and the call repeats its action, actor, session, turn, scope and project in time |
| Permissions.HonouredIsLive | appserver/permission.py:467-479 | the audit never stands in for an open approval |
| Permissions.HonouredOnce | appserver/permission.py:466-525 | over every run no approval is honoured twice, and a spent one can never be honoured |
| Permissions.FailedAttemptKeepsApprovals | appserver/permission.py:504-515 | a refused call leaves every approval exactly as usable as before |
| Permissions.PolicyChangeVoidsApprovals | appserver/permission.py:466-485 | a new profile, grant or the ask preset voids every earlier approval |
| Permissions.PresetKeepsApprovals | appserver/permission.py:229-235 | the auto and full presets leave them good |
| Permissions.TracedExactlyOnce | appserver/permission.py:389-414 | a call with no honoured approval adds one spent row whose decision is the returned verdict: decide never flips it |
| Permissions.HonouredAddsNoRow | appserver/permission.py:516-525 | an honoured call adds no row and spends the approval's own rows |
| Permissions.StreakIsTrailingRejects | appserver/permission.py:365-370 | a named session's streak is its run of rejects since the store was loaded, honoured approvals counting as allows |
| Permissions.HonouredEndsStreak | appserver/permission.py:521-522 | an honoured approval ends the streak if and only if the session is named or the streak was zero |
| Permissions.UnnamedStreakSurvives | appserver/permission.py:365-522 | a run in which the unnamed session has an approval honoured and keeps its streak of one |
| Permissions.FullAccessWasUnlocked | appserver/permission.py:222-240 | full access is active only in a process that unlocked it, and never right after a restart |
| Permissions.SetProfileTakesEffect | appserver/permission.py:181-200 | a chosen profile is the active one if and only if no preset, or the same policy, is set in this process |
| Permissions.ReadOnlyAfterPresetIsIgnored | appserver/permission.py:181-240 | a run in which the read-only profile is chosen after the auto preset and scoped actions stay allowed |
| PermissionStores.PermissionStore.constructor | appserver/permission.py:88-112 | a new store is the initial state |
| PermissionStores.PermissionStore.Save | appserver/permission.py:136-159 | the file holds the data with every row spent |
| PermissionStores.PermissionStore.ScopeGranted | appserver/permission.py:261-276 | the scan finds whether some grant covers action, project, time and scope |
| PermissionStores.PermissionStore.AutoReviewExpands | appserver/permission.py:278-303 | whether an automatic review asks for more than it may, the nested scan over roots included |
| PermissionStores.PermissionStore.DecideNow | appserver/permission.py:305-373 | the decide step and the decision it took |
| PermissionStores.PermissionStore.RevokeNow | appserver/permission.py:378-387 | the revoke step, and whether the id was known |
| PermissionStores.PermissionStore.SetProfileTo | appserver/permission.py:181-195 | the profile step |
| PermissionStores.PermissionStore.ApplyUiPreset | appserver/permission.py:222-240 | the preset step |
| PermissionStores.PermissionStore.GrantScopeNow | appserver/permission.py:242-259 | the grant step |
| PermissionStores.PermissionStore.Spend | appserver/permission.py:516-525 | spending an approval in the live table, the audit, the streaks and the file |
| PermissionStores.PermissionStore.CheckApproval | appserver/permission.py:477-503 | the chain of checks refuses exactly when the machine has a reason |
| PermissionStores.PermissionStore.JudgeCall | appserver/permission.py:526-568 | the verdict without an approval, which RiskyCallByProfile spells out per profile |
| PermissionStores.PermissionStore.EvaluateCall | appserver/permission.py:416-578 | the evaluate step and its verdict, which VerdictExactly spells out |
| PermissionStores.PermissionStore.Reload | appserver/permission.py:94-134 | the restart step |
| CapabilityJobs.StepKeepsInv | appserver/capabilities.py:584-749 | every interleaving of invoker, runner and cancelling threads keeps the invariant |
| CapabilityJobs.StatusIsFinal | appserver/capabilities.py:722-748 | in every continuation the first terminal status and its writer stay |
| CapabilityJobs.EndedMeansTerminal | appserver/capabilities.py:598-655 | a job whose runner has ended is terminal |
| CapabilityJobs.ToolFinishedOnce | appserver/capabilities.py:729-749 | the tool record is finished at most once, and for a settled terminal job exactly once with the job's own status |
| CapabilityJobs.StatusExactly | appserver/capabilities.py:598-648 | in any run, a job the runner finalizes is completed exactly after a result, cancelled exactly after a capability error other than a time-out with the flag up, failed otherwise; a job a cancel finalizes is cancelled |
| CapabilityJobs.CancelExactly | appserver/capabilities.py:720-731 | the flag goes up first; under the lock a cancel takes exactly a job without a status, and then tells the tool |
| CapabilityJobs.RowExactly | appserver/capabilities.py:615-648 | what the runner's row says, and that a success row that cannot be written sends the runner to finalize once more |
| CapabilityJobs.CancelsFollowTheRow | appserver/capabilities.py:562-583 | a job can be cancelled exactly from the row that publishes its id on, even before its runner starts |
| CapabilityJobs.JobCanEnd | appserver/capabilities.py:584-655 | every job can get to a terminal end without a cancel |
| CapabilityJobs.CancelledJobAudit | appserver/capabilities.py:615-652 | in any run in which a cancel wins, the invoke row says cancelled if and only if what ran timed out or ended with a capability error |
| CapabilityJobs.CancelledJobAuditedCompleted | appserver/capabilities.py:609-622 | a run that ends cancelled with a row saying completed |
| CapabilityServices.CapabilityJob.TakeTerminal | appserver/capabilities.py:722-748 | the section under the lock writes a terminal status at most once |
| CapabilityServices.CapabilityJob.FinalizeJob | appserver/capabilities.py:733-749 | the runner's finalize step |
| CapabilityServices.CapabilityJob.Advance | appserver/capabilities.py:551-749 | any step on the object is the machine's step and keeps its invariant |
| Rewinding.RestoreGivesBackStorable | appserver/review.py:585-676 | restoring a snapshot gives the workspace back if and only if every file is text that survives decoding, without early NUL and not too long |
| Rewinding.RefusedExactly | appserver/checkpoint_rewind.py:106-120 | a rewind does nothing if and only if it is unconfirmed, names no checkpoint, or touches the conversation without its prefix rewound |
| Rewinding.StoredExactly | appserver/review.py:585-611 | a checkpoint stores exactly the files of at most 400000 bytes without a NUL among their first 8000, as they decode, and the last item there was |
| Rewinding.RewindRestoresFiles | appserver/review.py:638-676 | in any run, after any edits, a code rewind to a checkpoint gives the workspace it was made of, exactly when that was storable |
| Rewinding.PreRewindUndoes | appserver/checkpoint_rewind.py:121-131 | at any later time the pre-rewind checkpoint brings back the files the rewind found, exactly when those were storable |
| Rewinding.CheckpointsStay | appserver/review.py:571-611 | checkpoints are only added to |
| Rewinding.VisibleAfterRewinds | appserver/checkpoint_rewind.py:17-140 | after any mix of appends and rewinds exactly the items up to the last target and those after the first rewind's high-water are visible, in order |
| Rewinding.LaterItemsStay | appserver/checkpoint_rewind.py:136-139 | an item added after the first rewind is visible in every continuation |
| Rewinding.RewindTruncatesExactly | appserver/checkpoint_rewind.py:132-140 | a rewind shows exactly the items up to its target if and only if no item came after both the first rewind and the target |
| Rewinding.SecondRewindKeepsLaterItem | appserver/checkpoint_rewind.py:132-140 | a run in which the second rewind leaves a later item in view |
| Rewinding.CodeRewindHidesItem | appserver/checkpoint_rewind.py:96-140 | a run in which rewinding only the code takes an item out of view |
| RewindServices.RewindService.ReadFiles | appserver/review.py:587-594 | the reading loop takes the snapshot |
| RewindServices.RewindService.WriteFiles | appserver/review.py:661-676 | the deleting and writing loops leave exactly the stored files |
| RewindServices.RewindService.CreateCheckpoint | appserver/review.py:567-614 | the snapshot step |
| RewindServices.RewindService.VisibleItems | appserver/checkpoint_rewind.py:17-69 | the filter loop leaves the visible items in order |
| RewindServices.RewindService.Rewind | appserver/checkpoint_rewind.py:96-155 | the rewind step, refusals included, and the number of items that left the view |
| DiffScan.FindingsFromDiff | appserver/review.py:183-244 | the loop over the split text returns the findings of scanning its pieces one by one, each with its text stripped and cut |
| DiffScan.ShownExactly | appserver/review.py:226-240 | a marker shows the stripped text, or its first 400 characters |
| Text.StripExactly | appserver/review.py:226-240 | stripping takes white space off both ends, and all of it |
| DiffScan.HeaderParses | appserver/review.py:209-212 | every rendered hunk header, with or without counts, is read back as its new start |
| DiffScan.HeaderExactly | appserver/review.py:209-212 | a text is read as a hunk header if and only if it begins with "@@ -", a number, perhaps a comma and a count, " +" and a number, and that whole number is the new start |
| DiffScan.NameIsRead | appserver/review.py:190 | the new file's name is read if and only if the old name does not contain " b/" |
| DiffScan.FirstB | appserver/review.py:190 | a file header names what follows its first " b/", if it has one |
| DiffScan.FileHeaderExactly | appserver/review.py:189-207 | a file header resets the line counter and reports its name the first time, unless that is empty |
| DiffScan.TrueLineIndexes | appserver/review.py:213-243 | the reference line number of a context or added line is the index of its text in the new file |
| DiffScan.RightMarkers | appserver/review.py:226-240 | every right marker shows, stripped and cut, the line of the new file it names, with its severity, and every flagged added line has one |
| DiffScan.ScanIsReported | appserver/review.py:183-244 | while no piece reads as the header of another file the scanner reports, in order, one change per new name and what the pieces of each hunk give |
| DiffScan.HeaderResets | appserver/review.py:209-212 | whatever stood in the counter, the first piece of a hunk header sets it to the start line, even when the heading is cut |
| DiffRight.ScanIsRight | appserver/review.py:183-244 | on every well-formed diff the findings over the split text are those of indexing into the new files if every line is read, and only then if no piece speaks out of turn anywhere or no flagged line goes unheard |
| DiffRight.LineReadExactly | appserver/review.py:188-243 | what the scanner reports on a line of any hunk is right if and only if, for a flagged line, exactly one piece is read as a flagged added line, with the severity, shown text and line number of the line, and for any other line no piece is |
| DiffRight.NextLineIs | appserver/review.py:189-243 | the line number an added piece gets is the start of the last header before it plus the context and added pieces since, one more if the start is zero and no context piece came first |
| DiffRight.TwoWrongsAgree | appserver/review.py:188-243 | a diff whose lines are not all read and whose findings are right by accident: an invented marker stands for a lost one |
| DiffRight.CutLineRead | appserver/review.py:188-240 | a lone flagged line cut in two is reported rightly if and only if its first piece has its severity and shows the same text |
| DiffRight.TrailingFormFeedIsRead | appserver/review.py:188-240 | a form feed at the end of a flagged line does no harm |
| DiffRight.SilentTailIsHarmless | appserver/review.py:188-243 | behind the last flagged line of a hunk silent lines do no harm, even with a piece that reads as the header of the file |
| DiffRight.OwnHeaderShiftsLine | appserver/review.py:189-191 | a diff whose marker names the wrong line because such a piece comes before it |
| DiffRight.BrokenIsMissed | appserver/review.py:188-240 | in any diff, a flagged line whose shown text holds a line boundary has a right marker that is never reported |
| DiffRight.ForeignHeader | appserver/review.py:188-207 | a piece that reads as the header of a file the diff does not hold makes the findings wrong |
| DiffRight.UnbrokenScanIsRight | appserver/review.py:213-243 | when no line holds a line boundary the findings are right if and only if no hunk has an added line beginning with two plus signs at or before a flagged line |
| DiffRight.FormFeedHidesMarker | appserver/review.py:188-240 | a diff whose only marker is missing because a form feed precedes the text |
| DiffRight.FormFeedShiftsLine | appserver/review.py:188-243 | a diff whose marker names the wrong line because a context line is counted twice |
| DiffRight.PlusPlusShiftsLine | appserver/review.py:213-240 | a diff without boundaries whose marker names the wrong line because of two plus signs |
| TextLines.SplitOfEnded | appserver/review.py:188 | splitting lines that were each ended by a line feed splits every one of them for itself |
| TextLines.SplitsAtEndings | appserver/review.py:188 | a line before one of the ten breaks, or before a carriage return and line feed together, is a piece, and what follows is split for itself |
| TextLines.SplitsAtTheEnd | appserver/review.py:188 | a last line without a break is a piece unless it is empty |
| TextLines.BreakExactly | appserver/review.py:188 | the ten characters lines are cut at |
| TextLines.SplitRecovers | appserver/review.py:188 | splitting gives the lines back if and only if none of them holds a line boundary |
| TextLines.PiecesOfLine | appserver/review.py:188 | the first piece of a line is its text before the first boundary, no piece holds one, and a line without one is its only piece |
| Text.JoinSplit | appserver/eventbus.py:220-225 | splitting a pattern at slashes loses nothing |
| Text.NumeralIsInjective | appserver/agent_runtime.py:348 | different attempts have different numerals |

## Left out

- The asyncio loop itself, subprocesses, pipes, stdout, locks on disk, HTTP and git workspaces: steps between awaits, sequences of messages and maps from flat path to content stand for them.
- Loss, crash and race on the permission file: it always holds what the last save wrote.
- `_buffer` of the coalescer is never read by the program and is not modelled; nor is the list of tickers cancelled by `stop`, nor the ticker's period.  The lock wait (2.0 s) is shorter than the final flush's limit (5.0 s), so the hard time-out step requires the final flush to own the lock.
- Coalescing: a cancellation of `stop` itself during its final flush, which marks the coalescer degraded as a dying ticker does here.
- Lone surrogates, on which encoding the pushed text would raise, and sinks that call back into the coalescer.
- Worker output: writer failures, run and cause ids of messages, kinds other than token, reasoning and progress, and the asynchronous sink.
- RpcPipes: the pipe before `start`, `respond`, the legacy threaded transport, cancellation of the teardown task itself, and what `AgentHost` does around the pipe.
- EventBus: the text of warnings, and subscribers other than queues.
- AgentLifecycle: `wait_state`, the journal, the process-tree cascade after the cancelled event, a publish that fails, a main task that has its result and queues behind a woken waiter of the condition (its result counts as later here), and the fallback call inside the targets of `AgentRuntime` (`appserver/agent_runtime.py:449-455`), which belongs to the target here.
- AgentLifecycle: the end of a pause's wait and its transition are two steps here, which admits more interleavings than the program has.
- ToolSlots.QuotaHoldsExactly: blocks inside blocks, for the direction that builds the run over the quota; an enclosing block cannot be cancelled first and keeps a session slot.
- ToolSlots: the order in which a semaphore serves its waiters (any order is allowed), the cancel-storm limit, and the AgentTask that `spawn` and `stop` drive.
- TokenLedger.UsageWithinBudget: the cap on an estimate and the number of calls in flight are what callers keep to; `check_budget` itself bounds neither.
- AgentRuntimes: models, providers, contexts, checkpoints, cache keys and cache namespaces (validation of one string at a time).
- Permissions: path canonicalisation (component prefixes stand for containment), uniqueness of the twelve-digit ids (a fresh id has not been used), files edited by hand, the reason and trace fields, blank project ids written with spaces.
- CapabilityJobs: several jobs at once (they share only the lock), the refusals before a job is started, payloads, and the inner MCP thread.
- Rewinding: several sessions, stale reviews, prefix rewinding, and directories: a file that became a directory, or the reverse, between snapshot and restore.
- DiffRight.ScanIsRight: for a diff with a piece that reads as the header of another file (a line cut right before `diff --git `) only one direction is claimed; `DiffRight.ForeignHeader` covers files the diff does not hold, and a piece that names another file of the diff is left open.
- DiffScan: quoted file names and names that hold a line boundary, the pattern checks themselves (any function of an added line), and digits other than 0 to 9.  Line texts are what reading the output of git in text mode gives (`appserver/review.py:49-57`), which turns CR LF into LF.
