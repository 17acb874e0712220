# A verified model of the agent's state machines and codecs

This Dafny project models the parts of the Teleton agent where the hard guarantees live and proves what they keep, for
every input, every run or every reachable state:

- **Autonomous task engine** (`PolicyEngine`, `PolicyWindows`, `PolicyVerdicts`, `Autonomous*`): the manager's queue of
  concurrent loops that are started, paused, resumed, stopped and restored; the loop of one task, cut into the segments
  between its awaits; the policy engine with its pruned, truncated and persisted windows. Any number of loops interleave
  over one store, stopped loops included, which keep running until their current await settles.
- **Agentic loop of one message** (`AgentLoop`, `AgentLoopExits`, `AgentLoopRun`, `ToolPool`): six retry budgets around an
  arbitrary stream of model answers, the worker pool that executes tool calls under an arbitrary schedule and abort, and
  the conversation that results.
- **Archives and backups** (`Utf8`, `TarHeader`, `TarArchive`, `TarLayout`, `TarRoundTrip`, `Text`, `Versions`, `Backup`,
  `BackupTargets`, `BackupPaths`, `BackupRoundTrip`): the tar writer and reader over bytes, the choice of what is backed
  up, the backup manifest, its inspection and its restoration.
- **Deals** (`Deals`, `DealsSafety`, `DealsTheorems`, `DealsTransitions`, `DealsTable`): concurrent executors, payment
  claims, expiry and cancellation acting on one table by guarded updates.
- **Plugin rate limiter** (`RateLimiter`), **schema sanitizer** (`SchemaSanitizer`, `SchemaLaws`), **configuration paths**
  (`ConfigPaths`, `ConfigPathLaws`) and **process supervisor** (`Supervisor`).

Code that the source writes as in-place updates is modelled by classes and methods whose contracts equate the new state
with a function of the old one; the results are then lemmas about these functions and about runs of them. What a
function computes is stated once more by lemmas of another form, in which the tool names, limits, statuses, columns and
byte offsets of the source are written out. Time is an integer, stores and files are maps, awaits are the boundaries of
atomic steps, TON amounts are exact reals.

## What does not hold, and when

Several promises fail for some inputs. The code is kept as it is, the exact condition is proved, and where the failure
is a state of a run, a run reaches it:

- A stopped loop writes "failed" over a resumed task exactly when the planning, escalation or evaluation call it still
  awaits is rejected (`AutonomousLoop.StoppedLoopWrites`, `AutonomousStatus.StoppedLoopFailsResumedTask`, reached by
  `AutonomousStatus.StoppedPlannerIsReachable`).
- The parallel cap is left exactly by a resume of an idle task at the cap, or by a completion that drains the queue while
  the cap is still reached (`AutonomousScheduling.CapKeptExactly`, reached by `AutonomousWitnesses.ResumeOverfills` and
  `AutonomousWitnesses.DrainOverfills`).
- The recorded daily spend falls behind what was spent exactly in runs in which a spending tool succeeds for a loop
  stopped meanwhile (`AutonomousSpend.DriftExactly`, `AutonomousSpend.RecordedIsSpent`, reached by
  `AutonomousWitnesses.ForgottenSpendIsReachable`).
- The hourly limit on a task's tool calls rests on lists that decide as all calls of the task would. In clock order, a step
  leaves a stored or loaded list that does not exactly in two cases (`AutonomousRates.StepRates`), and without such steps
  the limit holds (`AutonomousRates.HourlyLimitSurvivesPauses`):
  - a pause of a completed, failed or cancelled task whose snapshot is gone and whose last call is less than an hour old,
    which lets the task be resumed with an empty list. The web interface refuses it
    (src/webui/routes/autonomous.ts:163-192, `AutonomousPatience.GuardedPausesForgetNothing`), the manager does not; a run
    with it exceeds the limit (`AutonomousWitnesses.PausedFinishedTaskExceedsLimit`);
  - a stopped loop whose awaited tool is rejected, or whose reflection is while uncertainty is counted, after a later loop
    of the task has made a call, the last one less than an hour ago: it saves its old list. This cannot happen if resumes
    wait for earlier loops to return (`AutonomousPatience.WaitingResumesOverwriteNothing`); a run with it exceeds the limit
    (`AutonomousWitnesses.ImpatientResumeExceedsLimit`).
- The 20-entry action buffer detects loops as full history does exactly for thresholds 1 to 20
  (`PolicyWindows.BufferSufficesExactly`).
- A context overflow on the last iteration is never retried (`AgentLoop.OverflowRetriedExactly`).
- The conversation after a final response is left with calls without results exactly if that response calls tools and the
  last message is not the assistant's (`AgentLoopRun.ClosedIsPairedExactly`, `AgentLoopRun.Run`), as after a loop that
  runs out of iterations (`AgentLoopRun.RunOutOfIterations`).
- A tar entry survives exactly if its name is long or ASCII, has no NUL that ends it, and its mode is neither zero nor
  eight octal digits (`TarRoundTrip.RoundTripExactly`); the parser fails to move forward exactly on size fields of -512,
  or of -1024 and below (`TarArchive.StrideMovesForward`), and there are such fields (`TarRoundTrip.NoProgressExactly`).
- A restored file is lost exactly when a database recorded after it has it as a sidecar
  (`BackupRoundTrip.EmptyRootReproduced`); no root is backed up that way (`BackupTargets.NothingIsLost`).
- Captured files come back under the paths they had exactly if no path has a backslash, which archives turn into a slash
  (`BackupTargets.RootReproducedExactly`).
- A gift deal whose confirmation message fails is recorded as failed although the gift was delivered
  (`DealsTheorems.DeliveredIsCompletedExactly`, reached by `DealsTheorems.DeliveredGiftRecordedAsFailed`); a deal in which
  the user pays with a gift and the agent owes TON is never paid out, because no gift payment records a wallet
  (`DealsTheorems.GiftForTonIsNeverPaid`, reached by `DealsTheorems.PaidGiftForTonIsStranded`).
- The plugin rate limiter decides the calls of a key as full history would, whatever their times and limits, exactly for
  the lists of windows in which no positive window is larger than an earlier one (`RateLimiter.WindowsDecideExactly`).
- A union of constants of one type, possibly with null, keeps its meaning when sanitized exactly if null is not in it
  (`SchemaLaws.UnionKeptExactly`).

## Model

| member | source | states |
|---|---|---|
| PolicyEngine.LetThrough | src/autonomous/policy-engine.ts:234-384 | an action allowed without escalation is within the iteration, tool-rate and API-rate limits, has a well-formed amount, and stays within the task budget, the confirmation threshold and the daily budget |
| PolicyEngine.PolicyEngine.CheckAction | src/autonomous/policy-engine.ts:234-384 | the verdict is the set of violated rules, blocking or escalating, over the state before; only expired timestamps are dropped |
| PolicyEngine.PolicyEngine.CheckTask | src/autonomous/policy-engine.ts:239-301 | the rules on iterations, duration, tool lists and the declared amount |
| PolicyEngine.PolicyEngine.CheckSpend | src/autonomous/policy-engine.ts:303-343 | the rules on the amount derived from the real parameters, against both budgets and the threshold |
| PolicyEngine.PolicyEngine.CheckRates | src/autonomous/policy-engine.ts:345-363 | the two rate rules, on the lists it prunes in place |
| PolicyEngine.PolicyEngine.CheckLoop | src/autonomous/policy-engine.ts:365-379 | the loop rule on the recent actions |
| PolicyEngine.PolicyEngine.RecordToolCall | src/autonomous/policy-engine.ts:386-393 | the list becomes the last N timestamps of the hour, and the new snapshot is persisted |
| PolicyEngine.PolicyEngine.RecordApiCall | src/autonomous/policy-engine.ts:395-402 | the same for the minute window |
| PolicyEngine.PolicyEngine.RecordUncertain | src/autonomous/policy-engine.ts:404-408 | the count grows, is persisted, and tells when the limit is reached |
| PolicyEngine.PolicyEngine.ResetUncertainCount | src/autonomous/policy-engine.ts:410-414 | the count is zero; nothing is persisted if it was zero already |
| PolicyEngine.PolicyEngine.RecordAction | src/autonomous/policy-engine.ts:416-424 | the last twenty tool names, persisted |
| PolicyEngine.PolicyEngine.Hydrate | src/autonomous/policy-engine.ts:199-223 | a snapshot restores exactly the state it was serialized from; fields that are missing or of another type are emptied; no snapshot changes nothing |
| PolicyEngine.PolicyEngine.SetDailySpend | src/autonomous/policy-engine.ts:230-232 | amounts that are not finite and non-negative count as zero |
| PolicyVerdicts.SpendByTool | src/autonomous/policy-engine.ts:113-180 | what every tool is taken to spend, by name: the amount parameter, 0.05 TON, the declared amount, or nothing |
| PolicyVerdicts.CheckPrunes | src/autonomous/policy-engine.ts:345-363 | a check forgets exactly the calls that are an hour, or a minute, old |
| PolicyVerdicts.AllowedExactly | src/autonomous/policy-engine.ts:234-384 | an action is not blocked if and only if the task has iterations, hours and the tool left, its amounts are well-formed and within both budgets, and both rates have room |
| PolicyVerdicts.AskedExactly | src/autonomous/policy-engine.ts:234-384 | the user is asked if and only if the tool is restricted, the amount is above the threshold, or the last actions repeat |
| PolicyVerdicts.UnaskedIsAffordable | src/autonomous/policy-engine.ts:303-343 | an action let through unasked spends, by its tool, a finite positive amount within task budget, threshold and what is left of the day |
| PolicyVerdicts.ExecutedIsAffordable | src/autonomous/loop.ts:313-376 | a planned tool that is executed is within the limits of the task as it is stored and of the day as it stands |
| PolicyVerdicts.SuccessRecordsSpend | src/autonomous/loop.ts:376-415 | a successful tool of a loop that goes on adds exactly that amount to the day, and a stopped loop adds nothing |
| PolicyVerdicts.OnlySuccessRecords | src/autonomous/loop.ts:243-525 | no other outcome spends anything or changes the total of the day |
| PolicyVerdicts.OtherStepsKeepTheDay | src/autonomous/loop.ts:376-415 | a new day starts at nothing, and no manager call changes the total |
| PolicyVerdicts.StepRecordsSpend | src/autonomous/loop.ts:376-415 | the same for a step of the interleaved engine |
| PolicyWindows.SameDecision | src/autonomous/policy-engine.ts:345-363 | a list that keeps the newest entries reaches the limit at any later time exactly when full history does |
| PolicyWindows.RecordKeepsRefinement | src/autonomous/policy-engine.ts:386-402 | pushing, pruning and truncating keeps the list equivalent to full history |
| PolicyWindows.SpacedBoundsEveryWindow | src/autonomous/policy-engine.ts:345-354 | calls spaced a window apart bound every window, wherever it ends |
| PolicyWindows.AdmittedCallKeepsSpacing | src/autonomous/policy-engine.ts:345-393 | a call recorded after a check that found room keeps that spacing |
| PolicyWindows.BufferSufficesExactly | src/autonomous/policy-engine.ts:365-424 | the 20-entry buffer detects the loops of full history if and only if the threshold is 1..20 or detection is off |
| PolicyWindows.PrunedListsDecideAsFullHistory | src/autonomous/policy-engine.ts:199-424 | after any timed sequence of checks, records and serialize/hydrate cycles, all three limits decide as full history would |
| AutonomousLoop.StatusProtected | src/autonomous/loop.ts:158-176 | no segment of a loop changes a paused, cancelled, completed or failed status |
| AutonomousLoop.StoppedLoopWrites | src/autonomous/loop.ts:286-311 | a stopped loop changes the status if and only if one of three awaited calls is rejected while the task is live, and then to failed |
| AutonomousLoop.PausedSnapshotKept | src/autonomous/loop.ts:232-240 | no loop drops the policy snapshot of a paused task |
| AutonomousLoop.GoingOnMeansRunning | src/autonomous/loop.ts:243-525 | a loop that has not returned leaves a running (or failed) status as it is |
| AutonomousLoop.SegmentAccounts | src/autonomous/loop.ts:243-525 | every segment keeps the books: tools executed, planning calls and steps of a run |
| AutonomousLoop.SegmentBurnsFuel | src/autonomous/loop.ts:243-525 | every settled await strictly lowers a measure bounded by the 500-iteration cap |
| AutonomousTransitions.SegmentChangesStatus | src/autonomous/loop.ts:286-525 | a segment completes the task if and only if its loop is not stopped and hears that the goal is achieved, pauses it if and only if an escalation of such a loop resolves, and fails it for exactly the listed outcomes |
| AutonomousTransitions.NextAwait | src/autonomous/loop.ts:286-525 | what a live loop does next, by the outcome: execute the planned tool, escalate, reflect, evaluate, plan again, or return with the recorded status |
| AutonomousTransitions.StepCounted | src/autonomous/loop.ts:450-506 | the step grows by one exactly at a reflection that does not escalate |
| AutonomousTransitions.LooksAtTheStore | src/autonomous/loop.ts:243-285 | before it plans again a loop leaves a task cancelled or paused meanwhile as it is, and takes the stored step |
| AutonomousTransitions.StoppedLoopReturns | src/autonomous/loop.ts:104-176 | a stopped loop whose call resolves returns with the status it finds and changes no row |
| AutonomousTransitions.SegmentTellsEngine | src/autonomous/loop.ts:313-506 | what the policy engine is told at each outcome, in order, and what of it stays stored |
| AutonomousTransitions.UncertaintyCounted | src/autonomous/loop.ts:420-450 | the uncertainty count after any outcome |
| AutonomousTransitions.LaunchedLoop | src/autonomous/manager.ts:84-105 | the loop a launch creates: registered, with the stored or an empty engine, planning unless the steps are used up |
| AutonomousTransitions.StatusChangesExactly | src/autonomous/manager.ts:60-245 | in every step of manager and loops, a task becomes completed, paused, cancelled, failed or running if and only if one of the listed events happens to it |
| AutonomousTransitions.LoopsChangeExactly | src/autonomous/manager.ts:118-167 | a loop changes by its own continuation, or is stopped exactly by a pause, a stop or a shutdown that finds it registered |
| AutonomousTransitions.HaltUnregisters | src/autonomous/manager.ts:118-167 | a paused or stopped task is neither registered nor waiting; at shutdown no task is |
| AutonomousTransitions.SettleRegisters | src/autonomous/manager.ts:100-115 | a completion is handled once, takes its loop off the register and launches the first waiting task |
| AutonomousTransitions.EnabledExactly | src/autonomous/manager.ts:60-115 | what can happen in a scheduled world: new ids, outcomes of what is awaited, one completion per returned loop |
| AutonomousTransitions.RestoredInOrder | src/autonomous/manager.ts:192-245 | after a restart the interrupted tasks are taken up in order: as many as there is room for are launched, the others wait |
| AutonomousTransitions.StartedStatus | src/autonomous/manager.ts:60-82 | a started task runs, or is queued at the cap |
| AutonomousTransitions.CompletedByALiveLoop | src/autonomous/loop.ts:509-524 | over runs: a task that became completed was completed by a live loop that heard that its goal is achieved |
| AutonomousLoopRun.LoopObject.SafeUpdateStatus | src/autonomous/loop.ts:158-176 | writes unless the stored status is external or terminal |
| AutonomousLoopRun.LoopObject.ClearStateOnTerminal | src/autonomous/loop.ts:232-240 | drops the snapshot only of a terminal task |
| AutonomousLoopRun.LoopObject.Header | src/autonomous/loop.ts:243-285 | the loop head: abort, store state and global cap, before planning |
| AutonomousLoopRun.LoopObject.OnPlan | src/autonomous/loop.ts:313-347 | daily spend synchronised, action checked, call recorded, in one turn |
| AutonomousLoopRun.LoopObject.OnTool | src/autonomous/loop.ts:369-415 | spend recorded for a successful tool of a loop that was not stopped |
| AutonomousLoopRun.LoopObject.OnReflection | src/autonomous/loop.ts:420-506 | uncertainty, escalation and stop decisions of the reflection, then the step |
| AutonomousLoopRun.LoopObject.Continue | src/autonomous/loop.ts:178-582 | the object computes exactly the segment function the interleaving results are about |
| AutonomousLoopRun.LoopObject.Run | src/autonomous/loop.ts:178-582 | one run terminates whatever its dependencies answer, within the bounds on tools and planning calls |
| AutonomousManager.AutonomousTaskManager.StartTask | src/autonomous/manager.ts:60-82 | creates the task, and runs it or queues it at the cap |
| AutonomousManager.AutonomousTaskManager.RunLoop | src/autonomous/manager.ts:84-105 | registers a fresh loop and runs it up to its first await |
| AutonomousManager.AutonomousTaskManager.Finally | src/autonomous/manager.ts:100-115 | deregisters only the registered loop, then starts the next waiting task |
| AutonomousManager.AutonomousTaskManager.PauseTask | src/autonomous/manager.ts:118-135 | stops the loop, unqueues the task, records it as paused |
| AutonomousManager.AutonomousTaskManager.ResumeTask | src/autonomous/manager.ts:138-144 | runs a paused task, without looking at the cap |
| AutonomousManager.AutonomousTaskManager.StopTask | src/autonomous/manager.ts:147-157 | stops the loop, unqueues the task, records it as cancelled |
| AutonomousManager.AutonomousTaskManager.StopAll | src/autonomous/manager.ts:160-167 | stops every registered loop and forgets the queue |
| AutonomousManager.AutonomousTaskManager.RestoreInterruptedTasks | src/autonomous/manager.ts:192-245 | runs or queues the active tasks in creation order |
| AutonomousInvariant.StepKeepsSchedule | src/autonomous/manager.ts:60-167 | every step of manager and loops keeps the bookkeeping of registers, queue, owners and statuses |
| AutonomousInvariant.AtMostOneLiveLoop | src/autonomous/manager.ts:84-157 | in every run after a restore, a task has at most one loop neither stopped nor returned, and it is the registered one |
| AutonomousInvariant.QueueIsServed | src/autonomous/manager.ts:60-115 | queued ids are distinct, not running and recorded as queued; with a positive cap a non-empty queue has a pending completion |
| AutonomousStatus.ExternalStatusSurvives | src/autonomous/loop.ts:104-176 | a pause, cancellation or terminal status survives every step of every loop until the task is addressed again, and so does a paused task's snapshot |
| AutonomousStatus.CalmRunsKeepLiveTasksRunning | src/autonomous/loop.ts:178-213 | while no stopped loop sees its awaited call rejected, every live loop works for a task recorded as running |
| AutonomousStatus.StoppedLoopFailsResumedTask | src/autonomous/loop.ts:294-303 | a resume followed by the rejection of an old planning call records the task as failed while its new loop goes on |
| AutonomousStatus.StoppedPlannerIsReachable | src/autonomous/manager.ts:118-144 | one start and one pause lead to such a state |
| AutonomousScheduling.FifoUnderTheCap | src/autonomous/manager.ts:60-115 | with starts, restore and completions only: running is at most the cap, equal to it whenever a task waits, and launches follow admission order |
| AutonomousScheduling.CapKeptExactly | src/autonomous/manager.ts:100-144 | the cap is left by exactly two kinds of step |
| AutonomousScheduling.StopAllAndWaitIsFinal | src/autonomous/manager.ts:160-181 | once the completions taken at shutdown have settled, none is pending and every loop has returned |
| AutonomousWork.RunsAreBounded | src/autonomous/loop.ts:243-525 | a run from step s executes at most max(0, C - s) tools, plans at most once more, and returns after a bounded number of awaits |
| AutonomousSpend.DailySpendBounded | src/autonomous/loop.ts:313-415 | with at most k tools executing, recorded spend plus unrecorded checked spend exceeds the daily budget by at most (k - 1) times any b that bounds the smaller of task budget and confirmation threshold for all stored and started tasks; with k = 1 never |
| AutonomousSpend.CapBoundsDailySpend | src/autonomous/loop.ts:313-415 | without pauses, stops and resumes the parallel cap is such a k, for every such b |
| AutonomousSpend.DriftExactly | src/autonomous/loop.ts:376-415 | recorded and real spend drift apart in a step if and only if a spending tool succeeds for a stopped loop, and never come closer |
| AutonomousSpend.RecordedIsSpent | src/autonomous/loop.ts:376-415 | over a run, the gap between real and recorded spend never shrinks, and stays the same if and only if the run has no such step |
| AutonomousRates.StepRates | src/autonomous/loop.ts:178-582 | in clock order, a step keeps every stored list deciding as all calls of its task, and every list in memory as the calls its loop can know, if and only if it is neither a pause that forgets nor a stopped loop that overwrites |
| AutonomousRates.StaleStandsExactly | src/autonomous/policy-engine.ts:345-393 | a list that misses the later calls decides as all of them if and only if there are none or the last is an hour old |
| AutonomousRates.HourlyLimitSurvivesPauses | src/autonomous/policy-engine.ts:345-393 | in every run in clock order in which no step forgets or overwrites, whenever tasks are paused and resumed, no hour, wherever it ends, holds more of all the tool calls a task ever made than configured |
| AutonomousPatience.GuardedPausesForgetNothing | src/webui/routes/autonomous.ts:163-192 | runs that pause only running, pending and queued tasks, as the web interface does, have no pause that forgets |
| AutonomousPatience.WaitingResumesOverwriteNothing | src/autonomous/manager.ts:138-144 | in runs after a restore whose resumes wait until the task's earlier loops have returned, no stopped loop overwrites |
| AutonomousWitnesses.PausedFinishedTaskExceedsLimit | src/autonomous/manager.ts:118-144 | a run without overwriting loops in which a stopped task is paused and resumed makes two calls in an hour that admits one |
| AutonomousWitnesses.ImpatientResumeExceedsLimit | src/autonomous/loop.ts:376-415 | a run without forgetting pauses in which a stopped loop overwrites makes two calls in an hour that admits one |
| AutonomousWitnesses.ForgottenSpendIsReachable | src/autonomous/loop.ts:376-415 | a run in which a TON is spent and not recorded |
| AutonomousWitnesses.ResumeOverfills | src/autonomous/manager.ts:138-144 | a run in which a resume makes two tasks run under a cap of one |
| AutonomousWitnesses.DrainOverfills | src/autonomous/manager.ts:100-115 | a run in which a completion makes two tasks run under a cap of one |
| ToolPool.Pool.Claim | src/agent/runtime.ts:1280-1315 | a claim takes the next index once: aborted and blocked plans are filled in, others go to the registry |
| ToolPool.Pool.Work | src/agent/runtime.ts:1279-1350 | a worker claims until it awaits the registry or no plan is left |
| ToolPool.Pool.Finish | src/agent/runtime.ts:1328-1348 | an answer fills the worker's own slot |
| ToolPool.RunPool | src/agent/runtime.ts:1275-1353 | under every schedule and abort: every slot holds what was claimed after the abort, blocked, or answered by the registry for its own call, and exactly the unblocked plans claimed before the abort executed, once, in order, never more than three at a time |
| AgentLoop.PassProgresses | src/agent/runtime.ts:837-1180 | a pass that goes on consumes an iteration, a retry that never resets, or a retry of the streak |
| AgentLoop.LoopIsBounded | src/agent/runtime.ts:794-1180 | for every stream of answers the loop ends within 5 M + 14 requests and M rounds of tools |
| AgentLoop.BoundIsAttained | src/agent/runtime.ts:794-1180 | some stream needs exactly that many |
| AgentLoop.OverflowRetriedExactly | src/agent/runtime.ts:1013-1042 | after an overflow the model is asked again if and only if an iteration is left and no abort intervenes |
| AgentLoopExits.LoopEnds | src/agent/runtime.ts:794-1180 | how every loop ends: with the reply of its last turn, with a failure, or without either, each if and only if what that turn answered and the turns of its family before it say so (eight, three, three and one retries, three empty answers and a recovery); and how many requests and rounds of tools it took |
| AgentLoopRun.RunTools | src/agent/runtime.ts:1207-1500 | appends the reply and one result per call, in order, with its own id, marked as an error exactly if the call was cut off, blocked or answered by an error |
| AgentLoopRun.RunRound | src/agent/runtime.ts:1188-1536 | a round of tools appends the reply, the results and nothing else |
| AgentLoopRun.RunPass | src/agent/runtime.ts:837-1542 | one pass computes the control function, writes at most one round, starts over with the message after an overflow, and keeps the conversation paired |
| AgentLoopRun.RunAnswered | src/agent/runtime.ts:1119-1542 | the same for a reply: retry, recovery, end, or one round of tools written to the conversation |
| AgentLoopRun.RetryFailed | src/agent/runtime.ts:1043-1116 | error families are tried in order, each against its own budget |
| AgentLoopRun.TakeTurn | src/agent/runtime.ts:837-1542 | one turn of the loop: the request is logged with the conversation it sends, and the next conversation is the one the rounds written say |
| AgentLoopRun.Run | src/agent/runtime.ts:794-1566 | the whole loop is the control function's run; every request sends the history, the message and the rounds before it, or the message and the rounds since the session reset; if the history was paired, so is every context it sends, and the conversation after its final response if and only if that response calls no tools or the last message is the assistant's |
| AgentLoopRun.ClosedIsPairedExactly | src/agent/runtime.ts:1561-1566 | after the final push a paired conversation is paired if and only if the final reply calls no tools or the last message is already the assistant's |
| AgentLoopRun.RunOutOfIterations | src/agent/runtime.ts:1538-1566 | a loop answered with tool calls to its last iteration leaves its last reply repeated without results |
| Utf8.DecodeEncoded | src/backup/archive.ts:141-144 | decoding UTF-8 undoes encoding, for every text |
| Utf8.DecodedIsThere | src/backup/archive.ts:141-144 | a decoded character is a replacement or stands there in its own bytes |
| Utf8.UnitsStandFor | src/backup/archive.ts:34-37 | a character beyond sixteen bits is a high and a low surrogate that stand for it |
| TarHeader.PaddedOctalFits | src/backup/archive.ts:39-45 | a value below 8^n is written with exactly n digits that stand for it |
| TarHeader.WriteOctal | src/backup/archive.ts:39-45 | the field holds the leading digits and a NUL, nothing else changes |
| TarHeader.ChecksumReadsBack | src/backup/archive.ts:69-76 | the six checksum digits read back as the byte sum with the field blanked |
| TarHeader.BuildHeader | src/backup/archive.ts:47-79 | the block written in place is the ustar layout, 512 bytes |
| TarArchive.ArchiveLength | src/backup/archive.ts:81-116 | every archive is a whole number of blocks, counted entry by entry |
| TarArchive.PushEntry | src/backup/archive.ts:86-105 | an optional LongLink record, then the file record |
| TarArchive.CreateTar | src/backup/archive.ts:107-116 | the entries in order and two zero blocks |
| TarLayout.HeaderLaidOut | src/backup/archive.ts:47-79 | every header field at its offset: name bytes, octal mode, user, group, size and time, checksum with its field counted as spaces, type, magic, version, zeros |
| TarLayout.RecordsWritten | src/backup/archive.ts:86-105 | which records an entry is written as, with which name, type, mode and time |
| TarLayout.HeaderRead | src/backup/archive.ts:124-147 | what is taken for a LongLink, for the end, and for the mode |
| TarArchive.StrideMovesForward | src/backup/archive.ts:132-139 | every stride is a multiple of 512, positive exactly for sizes above -1024 other than -512 |
| TarArchive.ReadRecord | src/backup/archive.ts:124-151 | one pass of the parser: end marker, fields, data, LongLink or entry |
| TarArchive.ParseTar | src/backup/archive.ts:118-154 | the loop with its pending name is the recursive parse of the buffer |
| TarRoundTrip.StripPadded | src/backup/archive.ts:130-134 | padding with NULs and cutting gives a text back if and only if each of its NULs has a line terminator after it |
| TarRoundTrip.OctalFieldReads | src/backup/archive.ts:132-135 | a numeric field reads back if and only if it fits and is no zero replaced by the default |
| TarRoundTrip.NameReadsBack | src/backup/archive.ts:87-102 | a name reads back if and only if it survives |
| TarRoundTrip.HeaderReads | src/backup/archive.ts:47-79 | a written header is no zero block and its fields read back |
| TarRoundTrip.RecordFound | src/backup/archive.ts:124-151 | the parser finds a record where it was laid out, and takes it for LongLink exactly if it was written as one |
| TarRoundTrip.ArchiveReadsBack | src/backup/archive.ts:107-154 | parsing an archive gives every entry in order, for any mix of long and short names |
| TarRoundTrip.MinusSticks | src/backup/archive.ts:132-139 | a size field with a minus sign keeps the parser from moving forward if and only if it says 512, or 1024 and more |
| TarRoundTrip.NoProgressExactly | src/backup/archive.ts:118-154 | a buffer of one block with such a field, on which the parser makes no progress for exactly these sizes |
| TarRoundTrip.RoundTripExactly | src/backup/archive.ts:107-154 | parsing undoes writing if and only if every name and mode survives |
| Versions.CompareVersions | src/backup/restore.ts:65-76 | 1, 0 or -1 as the first version is newer, equal or older, the first differing component deciding and missing ones counting as zero |
| Versions.CompareIsNewer | src/backup/restore.ts:65-76 | positive if and only if the first component that differs is larger in the first |
| Versions.ComponentsRead | src/backup/restore.ts:66-67 | a component is the number its part begins with, or zero |
| Versions.WrittenComponents | src/backup/restore.ts:65-68 | the components of a version written as decimal numbers between dots are those numbers |
| Versions.PaddingIsImmaterial | src/backup/restore.ts:68-75 | any common padding gives the same order |
| Versions.CompareIsTotalPreorder | src/backup/restore.ts:65-76 | antisymmetric, transitive, and equal exactly up to trailing zeros |
| Text.SplitSeparates | src/backup/restore.ts:38-62 | no part of a split contains the separator |
| Text.SplitJoin | src/backup/restore.ts:38-62 | separator-free parts come back from their join |
| Text.PartsAreSegments | src/backup/restore.ts:38-49 | the parts are exactly the segments between separators and ends |
| Text.ParseDecimalReads | src/backup/restore.ts:65-68 | a decimal number is read after white space and a sign, up to the first character that is no digit |
| Text.NoNumber | src/backup/restore.ts:65-68 | where no digit follows there is no number |
| Backup.CreateBackup | src/backup/backup.ts:98-146 | the archive of manifest and files, each recorded with hash, size and kind |
| Backup.EntriesWritten | src/backup/backup.ts:98-146 | what is written for each file: bytes, path, owner-only mode, hash, size and kind, after the manifest |
| Backup.InspectBackup | src/backup/restore.ts:79-115 | entries by name, then manifest, then the first fault of a recorded file |
| Backup.Root.RestoreBackup | src/backup/restore.ts:121-180 | the schema gate, then every recorded file in order, with sidecars removed, up to the first error |
| Backup.Root.RestoreFile | src/backup/restore.ts:155-165 | a database loses its -wal, -shm and -journal files, then the file is in place, and nothing else changes |
| BackupRoundTrip.CanonicalDestination | src/backup/restore.ts:38-62 | canonical relative paths are valid and restored where they say |
| BackupRoundTrip.FreshArchiveInspected | src/backup/restore.ts:79-115 | a fresh archive passes inspection, which finds the manifest and every file |
| BackupRoundTrip.BackupRestores | src/backup/restore.ts:121-180 | restoring a backup puts back every file, unless the schema gate refuses it |
| BackupRoundTrip.EmptyRootReproduced | src/backup/restore.ts:146-167 | in an empty root the files come back exactly if and only if none is a sidecar of a database recorded later |
| BackupTargets.ResolveBackupTargets | src/backup/targets.ts:60-98 | existing databases of the root, *.db files of plugins/data, plain files, workspace, in this order |
| BackupTargets.CapturedExactly | src/backup/targets.ts:11-98 | a file is captured if and only if it is one of the named databases and plain files, a .db file of plugins/data, or in the workspace |
| BackupTargets.NothingIsLost | src/backup/targets.ts:60-98 | whatever the root holds, no captured file is a sidecar of a database recorded after it |
| BackupTargets.RootReproduced | src/backup/restore.ts:121-180 | a backup of any root, restored into an empty one, gives back exactly the files captured, under the paths they are archived as |
| BackupTargets.RootReproducedExactly | src/backup/backup.ts:43-44 | those are the paths the files had if and only if none has a backslash |
| BackupRoundTrip.ReplayElsewhere | src/backup/restore.ts:146-167 | files not recorded stay, unless they are sidecars of restored databases |
| BackupRoundTrip.InspectionIsSound | src/backup/restore.ts:79-115 | an accepted archive has, for every recorded file, bytes that hash as recorded under a path that is not rooted and has no two dots between slashes, backslashes and ends |
| BackupPaths.ValidPathExactly | src/backup/restore.ts:38-49 | a path is valid if and only if it is not empty, not rooted, and has no ".." between slashes, backslashes and ends |
| BackupPaths.LeadsBelow | src/backup/restore.ts:51-62 | where a path is restored: through its own segments, without empty ones and dots, below the root |
| BackupPaths.LeadsNowhereExactly | src/backup/restore.ts:51-62 | a valid path is restored unless it has no segment of its own or its first one begins with two dots |
| BackupPaths.EntriesCollected | src/backup/restore.ts:79-92 | the entries read are those of the archive under their names, the last of a name, and any bad name refuses all |
| BackupPaths.InspectionExactly | src/backup/restore.ts:79-115 | an archive is accepted if and only if it unpacks, its names are valid, its manifest reads, and every recorded file is intact |
| BackupPaths.RefusalsExactly | src/backup/restore.ts:79-115 | why an archive is refused: the first of not unpacking, a bad name, a missing or unreadable manifest, and the first file that is not intact |
| BackupPaths.RefusedExactly | src/backup/restore.ts:121-140 | the gate refuses if and only if, without force, the manifest names a schema newer than the supported one |
| BackupPaths.WrittenVersions | src/backup/restore.ts:121-140 | so for versions written as numbers |
| Deals.VerifyGiftPayment | src/deals/gift-matcher.ts:24-38 | the first unused gift from the deal's user with its slug, received no earlier than the deal was made, or none if none is |
| DealsTable.DealsDb.ClaimGiftPayment | src/deals/gift-matcher.ts:46-61 | succeeds exactly if the status is as expected and no deal holds the gift |
| DealsTable.DealsDb.ExpireStaleDeals | src/deals/module.ts:135-145 | exactly the proposed and accepted deals past their time change, to expired |
| DealsTable.DealsDb.LockRow | src/deals/executor.ts:56-68 | the lock is taken exactly on a verified, unlocked deal |
| DealsTable.DealsDb.BeginExecution | src/deals/executor.ts:35-86 | an execution goes on exactly if the deal was executable and configured |
| DealsTable.DealsDb.FinishTransfer | src/deals/executor.ts:92-113 | the updates after a transfer was confirmed, failed or is pending |
| DealsTable.DealsDb.ReportFails | src/deals/executor.ts:220-250 | the update after the chat message failed |
| DealsTable.DealsDb.MoveStatus | src/bot/services/deal-service.ts:94-114 | a guarded status change and whether it happened |
| DealsTable.BeginIsLoadThenLock | src/deals/executor.ts:35-68 | loading and locking in one turn are two steps of the interleaving |
| DealsSafety.StepKeeps | src/deals/executor.ts:30-280 | every step of bot, poller, tool, expiry job and executors keeps rows, executors, gifts and log consistent |
| DealsTheorems.TransferAtMostOnceAfterPayment | src/deals/executor.ts:46-68 | in every run each deal's transfer is asked for at most once, after its payment was verified |
| DealsTheorems.GiftPaidSendsAreCovered | src/deals/gift-matcher.ts:46-61 | sends for gift-paid deals map injectively to received gifts from the deal's own user, of its slug, no older than the deal, and never outnumber them |
| DealsTheorems.DeliveredIsCompletedExactly | src/deals/executor.ts:204-250 | a delivered deal is completed, except a gift whose report failed; nothing else is completed |
| DealsTheorems.DeliveredGiftRecordedAsFailed | src/deals/executor.ts:220-250 | a run in which that exception happens |
| DealsTheorems.GiftForTonIsNeverPaid | src/deals/executor.ts:81-86 | a deal paid by gift and owing TON is never sent or completed |
| DealsTheorems.PaidGiftForTonIsStranded | src/deals/executor.ts:56-86 | a run that leaves such a deal verified and locked for good |
| DealsTheorems.LockStrandsExactly | src/deals/executor.ts:56-86 | the first executor strands a deal if and only if it owes TON without an amount or a wallet, or a gift without an id |
| DealsTheorems.StrandedForever | src/deals/executor.ts:46-68 | a deal left verified and locked stays so whatever happens |
| DealsTheorems.StatusesMoveForward | src/bot/services/deal-service.ts:81-145 | statuses only move forward, and a verified payment is never withdrawn |
| DealsTransitions.StatusChangesExactly | src/deals/executor.ts:30-280 | in every step a deal becomes accepted, declined, cancelled, claimed, expired, verified, completed or failed if and only if one of the listed events happens to it |
| DealsTransitions.ProposalRecorded | src/agent/tools/deals/propose.ts:105-145 | a proposal begins a row with its terms and nothing paid |
| DealsTransitions.ColumnsChangeExactly | src/deals/executor.ts:30-280 | what every step does to the other columns: the terms stay, expiry, payment, lock and proof of the transfer change if and only if their event happens |
| DealsTransitions.ExecutorsMoveExactly | src/deals/executor.ts:30-280 | which executor moves where in a step, and which begins |
| DealsTransitions.LogGrowsExactly | src/deals/executor.ts:30-280 | what a step adds to the record of payments, transfers, deliveries and failed reports |
| DealsTransitions.PaymentRecorded | src/deals/gift-matcher.ts:46-61 | an accepted payment is recorded with what proves it |
| DealsTransitions.AnswerRecorded | src/deals/executor.ts:92-250 | what each answer of a transfer leaves in the row |
| DealsTransitions.FailureRecorded | src/deals/executor.ts:220-280 | a failed gift transfer fails its deal whatever became of it; a failed TON transfer only a deal still verified |
| RateLimiter.PluginRateLimiter.PruneWindow | src/bot/rate-limiter.ts:74-83 | drops exactly the expired prefix |
| RateLimiter.PluginRateLimiter.PruneExpiredWindows | src/bot/rate-limiter.ts:63-72 | every other bucket pruned, and deleted if empty |
| RateLimiter.PluginRateLimiter.Check | src/bot/rate-limiter.ts:26-57 | the decision and the new buckets |
| RateLimiter.LimiterDecidesAsFullHistory | src/bot/rate-limiter.ts:26-83 | a call passes if and only if fewer than its limit of accepted calls of its key lie in its window, whatever other keys' checks pruned, if no positive window of the key is larger than an earlier one |
| RateLimiter.NoWindowExceedsLimit | src/bot/rate-limiter.ts:47-56 | with one limit and window per key, no window holds more accepted calls |
| RateLimiter.WindowsDecideExactly | src/bot/rate-limiter.ts:26-83 | for a list of windows, every sequence of calls that checks a key with these windows is decided for that key as full history would if and only if no positive window is larger than an earlier one |
| RateLimiter.GrowingWindowForgets | src/bot/rate-limiter.ts:43-44 | for every other list of windows, calls that are decided otherwise |
| RateLimiter.KeysAreDistinct | src/bot/rate-limiter.ts:59-61 | plugins and actions without colons never share a bucket |
| SchemaSanitizer.SanitizeSchema | src/agent/schema-sanitizer.ts:27-90 | the edits of a fresh copy compute the recursive function |
| SchemaSanitizer.EditUnion | src/agent/schema-sanitizer.ts:36-62 | the two anyOf passes |
| SchemaSanitizer.EditConst | src/agent/schema-sanitizer.ts:64-71 | const becomes a one-value enum with a type |
| SchemaLaws.SanitizedIsClean | src/agent/schema-sanitizer.ts:27-90 | no unsupported keyword, const or list of alternatives is left at any reached node |
| SchemaLaws.SanitizeIsIdempotent | src/agent/schema-sanitizer.ts:27-90 | idempotent on all schemas, and the identity exactly on clean ones |
| SchemaLaws.PropertyNamesKept | src/agent/schema-sanitizer.ts:73-83 | every property keeps its name but "__proto__" |
| SchemaLaws.KeywordsDropped | src/agent/schema-sanitizer.ts:16-34 | exactly the eight named keywords are dropped; a keyword the rewriting does not speak of stays as it is |
| SchemaLaws.OtherUnionTakesFirst | src/agent/schema-sanitizer.ts:45-56 | a union of anything but constants is replaced by type, enumeration and, if missing, description of its first alternative that is not null |
| SchemaLaws.NullUnionBecomesText | src/agent/schema-sanitizer.ts:57-62 | a union of null types only becomes text, unless the node has a type |
| SchemaLaws.ConstUnionListed | src/agent/schema-sanitizer.ts:36-45 | a union of constants becomes the list of its values, in order, under the first one's type |
| SchemaLaws.MeaningKept | src/agent/schema-sanitizer.ts:27-90 | on primitives, constants, typed unions of constants, objects and arrays, the same values are accepted before and after, whatever further keywords mean |
| SchemaLaws.UnionKeptExactly | src/agent/schema-sanitizer.ts:36-62 | a union of constants of one type, possibly with null, accepts the same values before and after if and only if null is not in it |
| SchemaLaws.ToolCache.SanitizeToolsForGemini | src/agent/schema-sanitizer.ts:95-112 | cached forms are reused; for unmodified tools they agree with direct ones |
| ConfigPaths.ParsePath | src/config/configurable-keys.ts:1267-1293 | accepts exactly the paths that join non-empty, dot-free segments not forbidden in any case, and returns these; the error names the first bad segment |
| ConfigPaths.ForbiddenInAnyCase | src/config/configurable-keys.ts:1267-1293 | a segment is forbidden if and only if it spells one of three words, in whatever case |
| ConfigPaths.GetOneMore | src/config/configurable-keys.ts:1295-1305 | the value at a path is the property of the value one segment before |
| ConfigPaths.Config.GetNestedValue | src/config/configurable-keys.ts:1295-1305 | the value at the path, or none where the path leaves the tree |
| ConfigPaths.Config.SetNestedValue | src/config/configurable-keys.ts:1307-1319 | the loop that makes objects on its way writes the value at the path and nothing else |
| ConfigPaths.Config.DeleteNestedValue | src/config/configurable-keys.ts:1321-1333 | the loop removes what is at the path and nothing else |
| ConfigPathLaws.ReadsAfterSet | src/config/configurable-keys.ts:1295-1319 | every read after a write: below it what was written, above it the old value with the write done to it, elsewhere the old value |
| ConfigPathLaws.SetContainers | src/config/configurable-keys.ts:1307-1319 | on the way to what is written objects and arrays stay what they were, and all else becomes an object |
| ConfigPathLaws.SetIgnoredExactly | src/config/configurable-keys.ts:1307-1319 | a write changes nothing if and only if the path holds the value already |
| ConfigPathLaws.LastSetWins | src/config/configurable-keys.ts:1307-1319 | of two writes to a path the later wins |
| ConfigPathLaws.DivergingSetsCommute | src/config/configurable-keys.ts:1307-1319 | writes to diverging paths may be exchanged |
| ConfigPathLaws.ReadsAfterDelete | src/config/configurable-keys.ts:1295-1333 | every read after a deletion: nothing at the path or below, elsewhere what was there |
| ConfigPathLaws.DeleteContainers | src/config/configurable-keys.ts:1321-1333 | on the way to what is deleted everything stays of its kind |
| ConfigPathLaws.DeleteIgnoredExactly | src/config/configurable-keys.ts:1321-1333 | a deletion changes nothing if and only if nothing is at the path |
| ConfigPathLaws.DeleteUndoesSetExactly | src/config/configurable-keys.ts:1307-1333 | a deletion undoes a write if and only if the path was free in an object that existed |
| Supervisor.OneChildAtATime | src/gocoon/supervisor.ts:48-131 | children and restart timers never exceed one, equal one until stopped unless a spawn failed, and the backoff is min(1000 * 2^failures, cap) |
| Supervisor.StoppedSpawnsNothing | src/gocoon/supervisor.ts:63-120 | after stop or giving up no child is spawned |
| Supervisor.HistoryDecides | src/gocoon/supervisor.ts:48-131 | every field is what the history of exits, timers, probes and calls says: it has ended if and only if it was stopped, never became ready, or five probes failed in a row; the waiting time, the timers, probes and children left, and the child held |
| Supervisor.GocoonSupervisor.OnChildExit | src/gocoon/supervisor.ts:90-100 | an exit schedules one restart unless stopped |
| Supervisor.GocoonSupervisor.Restart | src/gocoon/supervisor.ts:102-106 | a timer spawns one child unless stopped |
| Supervisor.GocoonSupervisor.RestartProbed | src/gocoon/supervisor.ts:106-123 | recovery resets, failure doubles the backoff, gives up at five, and kills the child |

## Left out

- Network, Telegram, model calls, prompts, hooks' contents, audit, metrics, logging, CLI, WebUI and process spawning: inputs of the steps.
- Autonomous engine: deletion of tasks and direct status writes by the CLI and WebUI; checkpoints, logs and the planning context; the order and wording of violations; the clock is read once per segment, except that planning reads it for the check and for the record.
- Autonomous engine: loops live in a table indexed by number instead of on the heap, so that stopped loops can still be spoken about; task ids and loop ids are fresh.
- Autonomous engine: daily spend is one total over all wallets, and amounts are exact reals instead of binary floating point.
- AutonomousRates.HourlyLimitSurvivesPauses: assumes a monotone clock; neither of its other two conditions can be dropped, as the two witnesses show. That a list decides otherwise does not mean that the limit is exceeded: its task may make no further call.
- AgentLoop: which errors a text matches, the stall detector and the recovery prompt are inputs of a pass; backoff delays, token usage and self-correction after the loop are not modelled.
- AgentLoopRun.Run: only the in-memory conversation is modelled, not the persisted transcript; a recovery message has a fixed text; the original does not push a final response that an abort cut short, so what the contract says of the closed conversation concerns the other endings.
- TarArchive.ParseTar: where a size field does not move the parser forward, the original repeats or goes back; the model stops with NoProgress.
- TarRoundTrip.RoundTripExactly: file sizes and encoded long names are below 8^11 bytes, as the size field demands; names are sequences of Unicode scalar values, so lone surrogates do not occur; modes and times are natural numbers.
- Backup.CreateBackup: SQLite snapshots and gzip, JSON and SHA-256 internals; the codec is any functions, assumed faithful only where a theorem says so.
- Backup.Root.RestoreBackup: the safety backup taken first, directories, temporary files and their renaming; path resolution is that of POSIX systems, and a file never stands where a directory is needed.
- Deals: who may cancel, strategy and price checks, user statistics, messages, and gift transfers made by other tools on the strength of a verified deal; the TON verifier and the transfer are inputs.
- Deals: one transfer call stands for the free transfer and its paid fallback; a transfer whose answer is lost counts as not sent, as the code treats it.
- RateLimiter.LimiterDecidesAsFullHistory: assumes a monotone clock, as does RateLimiter.WindowsDecideExactly.
- BackupTargets.ResolveBackupTargets: directory listings and file contents are given; a directory where a file is expected is not considered.
- SchemaSanitizer.SanitizeSchema: object key order; a null alternative in anyOf, at which the original throws and the model reads an alternative without keywords; properties given as an array.
- Supervisor: the running flag, process groups and health polling; a second start() while a child is still exiting.
- ConfigPaths.Config.SetNestedValue: the configuration is a tree, so parts shared between two places do not occur; an array is its elements by index, without its length; the value undefined is not written.
- Catalogs, validators, nonces and lifecycle helpers: short members that would add only easy results.
