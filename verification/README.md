# Verified model of the agent runtime

This project models the parts of the agent runtime that are protocols over small state:
the tool scheduler and its locks, the bounded event stream, the pairing of tool calls
with their results and its recovery after a failure, the agent loop with its budgets,
tool dispatch and the reporting of tool outcomes, the multi-agent orchestrator, model
failover, the shared child inbox, and the cancellation tree.

What changes step by step in the program is a class or a loop here, proved against a
function that gives its new state; the properties are then proved of these functions over
every run. Code that other tasks can interrupt is a state machine whose steps are the
stretches between two suspension points, and the theorems quantify over all sequences of
steps. What comes from outside (a model's reply, a clock reading, a hook, the order in
which parallel tools finish) is a parameter or an arbitrary function.

`dafny verify dfyconfig.toml` checks everything.

| files | part of the runtime |
|---|---|
| `FairRWLock`, `FairSemaphore`, `Scheduler`, `Sharing`, `LockTable`, `LeaseHistory` | tool scheduling |
| `EventQueue`, `EventStream`, `EventPolicy`, `EventBuffer` | the bounded event stream |
| `Transcript`, `TranscriptRepair`, `RunRecovery` | tool-call transcripts and recovery |
| `CallIds`, `AgentTurn`, `LoopClosure`, `AgentLoop`, `TurnEvents`, `RunEvents` | the agent loop |
| `Dispatch`, `BatchOutcomes`, `DispatchedTurn`, `ToolOutcome` | running one batch of tools |
| `PlanGraph`, `Orchestrator`, `TaskOutcomes` | multi-agent plans |
| `HealthRegistry`, `ModelRouter`, `Failover` | model failover |
| `ChildInbox`, `InboxEdits`, `ChildControllers`, `ChildRuns` | durable child sessions |
| `CancellationTree` | cancellation tokens |
| `Basics` | what the others share |

Places where the code does not do all that one would wish, each with the exact condition:

- A lock key that times out between its registry lookup and its wait stays in the
  registry (`agent-loop/src/pi_agent_loop/tool_runtime.py:541-542`), whatever happens
  later (`Scheduler.TimeoutLeaks`). `Scheduler.EverythingGivenBack` shows that once all
  calls have finished the registry holds exactly these keys, so it is empty if and only
  if no such timeout occurred; `Scheduler.LeakWitness` is a complete run that leaves one.
- The preflight replaces bad ids but lets empty names through. `CallIds.PreflightAccepted`
  gives the condition under which the analyser accepts the result, and
  `CallIds.NamelessCallBreaksTranscript` an input that violates it.
- A half-open candidate can get a second probe: anyone who records a cancellation frees
  its probe slot. `HealthRegistry.ProbeGrantedExactly` shows that this is the only way: in
  a half-open period a probe starts if and only if none was granted since the period began
  or since the last cancellation. `HealthRegistry.TwoProbes` is a run with two probes for
  any threshold and cooldown.
- An interrupted tool execution whose handler was entered is always reported as unknown
  if and only if the replay policy of the tool is `never` (`ToolOutcome.UnknownIffNever`).
  For the other tools `ToolOutcome.ReplayableToolExact` gives the report of every race: a
  timeout or a cancellation is reported as such, and a lost lease makes a returned result
  unknown unless the event that announces the loss fails.
- The check of the turn budget at the top of the inner loop never fires
  (`AgentLoop.TopCheckNeverFires`).

## Model

| member | source | states |
|---|---|---|
| FairRWLock.EnqueueKeeps | agent-loop/src/pi_agent_loop/tool_runtime.py:443-473 | a new request is queued or granted at once, everybody else is at most granted in the mode asked for, and neither exclusion nor the absence of lost wake-ups breaks |
| FairRWLock.ReleaseKeeps | agent-loop/src/pi_agent_loop/tool_runtime.py:475-481 | giving a grant back takes nothing from others and leaves no request blocked without cause |
| FairRWLock.CancelKeeps | agent-loop/src/pi_agent_loop/tool_runtime.py:452-461 | a task cancelled while it waits only turns its own request stale |
| FairRWLock.WithdrawKeeps | agent-loop/src/pi_agent_loop/tool_runtime.py:452-473 | the cleanup of an interrupted request returns a grant that raced with the cancellation, or its place in the queue, and wakes whoever it blocked |
| FairRWLock.FairOverRuns | agent-loop/src/pi_agent_loop/tool_runtime.py:443-505 | over every run with cancellation racing against granting: never a writer with anybody else, no lost wake-up except behind a withdrawn head awaiting its cleanup, grants in arrival order |
| FairRWLock.NoOvertaking | agent-loop/src/pi_agent_loop/tool_runtime.py:483-500 | nobody is granted while an earlier undecided request waits |
| FairRWLock.FairAsyncRWLock.GrantLocked | agent-loop/src/pi_agent_loop/tool_runtime.py:483-500 | the grant loop on reader count and writer flag computes the grant pass of the model |
| FairRWLock.FairAsyncRWLock.GrantReadersLocked | agent-loop/src/pi_agent_loop/tool_runtime.py:492-500 | the run of readers at the head is granted together |
| FairRWLock.FairAsyncRWLock.Enqueue | agent-loop/src/pi_agent_loop/tool_runtime.py:443-451 | the lock object enters the state of the model's request step |
| FairRWLock.FairAsyncRWLock.Release | agent-loop/src/pi_agent_loop/tool_runtime.py:475-481 | likewise for a release |
| FairRWLock.FairAsyncRWLock.Withdraw | agent-loop/src/pi_agent_loop/tool_runtime.py:458-473 | likewise for the cleanup of an interrupted request, granted or not |
| FairRWLock.FairAsyncRWLock.Idle | agent-loop/src/pi_agent_loop/tool_runtime.py:502-505 | idle exactly when nobody holds and nobody is queued |
| FairSemaphore.BestFirst | agent-loop/src/pi_agent_loop/tool_runtime.py:421-427 | whoever a grant pass serves comes before everybody it leaves queued, by priority and then arrival |
| FairSemaphore.ConservedOverRuns | agent-loop/src/pi_agent_loop/tool_runtime.py:384-427 | over every run free slots and holders add up to the capacity, and no slot is free beside a queued request |
| FairSemaphore.PriorityOverRuns | agent-loop/src/pi_agent_loop/tool_runtime.py:384-427 | in every reachable state a step grants the best of the queued requests only |
| FairSemaphore.AskedOverRuns | agent-loop/src/pi_agent_loop/tool_runtime.py:384-393 | over every run each queued request carries the priority its caller asked for, and orders grow with arrivals |
| FairSemaphore.ServedByPriority | agent-loop/src/pi_agent_loop/tool_runtime.py:384-427 | whoever a step of any run grants asked for a higher priority than everybody it leaves queued, or for the same one and earlier |
| FairSemaphore.FairPrioritySemaphore.GrantLocked | agent-loop/src/pi_agent_loop/tool_runtime.py:421-427 | the grant loop computes the grant pass of the model |
| FairSemaphore.FairPrioritySemaphore.Enqueue | agent-loop/src/pi_agent_loop/tool_runtime.py:384-393 | the semaphore object enters the state of the model's request step and says whether the request waits |
| FairSemaphore.FairPrioritySemaphore.Release | agent-loop/src/pi_agent_loop/tool_runtime.py:416-419 | likewise for a release |
| FairSemaphore.FairPrioritySemaphore.Withdraw | agent-loop/src/pi_agent_loop/tool_runtime.py:394-414 | likewise for the cleanup of an interrupted request |
| Scheduler.RunsAreSafe | agent-loop/src/pi_agent_loop/tool_runtime.py:513-1047 | every schedule of submissions, grants, timeouts, failures and releases keeps all locks, the registry and every call consistent |
| Scheduler.ExclusiveAlone | agent-loop/src/pi_agent_loop/tool_runtime.py:716-914 | an exclusive call is active alone |
| Scheduler.NoConflict | agent-loop/src/pi_agent_loop/tool_runtime.py:520-568 | two active calls that share a resource key both only read it |
| Scheduler.WithinLimits | agent-loop/src/pi_agent_loop/tool_runtime.py:716-914 | active calls never exceed the parallel limit nor the limit of their tenant |
| Scheduler.UnreferencedIdle | agent-loop/src/pi_agent_loop/tool_runtime.py:564-568 | an entry is dropped only when its lock is held and awaited by nobody |
| Scheduler.ReleaseOrder | agent-loop/src/pi_agent_loop/tool_runtime.py:610-678 | a lease gives back its resource locks last acquired first, then its slots, and the barrier last |
| Scheduler.HolderIsAhead | agent-loop/src/pi_agent_loop/tool_runtime.py:716-914 | whoever holds what a call waits for can go on or waits for something strictly later in the order of acquisition |
| Scheduler.NoDeadlock | agent-loop/src/pi_agent_loop/tool_runtime.py:716-914 | in every reachable state with an unfinished call some call runs its tool or can take a step that needs nobody to give up |
| Scheduler.TimedOutStayRegistered | agent-loop/src/pi_agent_loop/tool_runtime.py:534-568 | in every reachable state the entries that lost a reference are those of the keys that timed out, and all these keys are registered |
| Scheduler.TimeoutLeaks | agent-loop/src/pi_agent_loop/tool_runtime.py:534-568 | a key that times out right after its lookup is registered after every continuation of the schedule |
| Scheduler.EverythingGivenBack | agent-loop/src/pi_agent_loop/tool_runtime.py:610-678 | when all calls have finished, every lock is free, every semaphore full, and the registry holds exactly the keys that timed out between their lookup and their wait |
| Scheduler.LeakWitness | agent-loop/src/pi_agent_loop/tool_runtime.py:534-551 | any call with a key, run alone to its end, can leave its key registered |
| Sharing.AllHoldWanted | agent-loop/src/pi_agent_loop/tool_runtime.py:716-914 | in every reachable state a call holds only locks it asked for: its own keys and the slot of its own tenant |
| Sharing.WaitsForConflict | agent-loop/src/pi_agent_loop/tool_runtime.py:766-819 | in every reachable state a call waits at the barrier only for another call there of which one is exclusive, and at a resource only for another call there that shares its key, one of the two to write |
| Sharing.WaitsForSlot | agent-loop/src/pi_agent_loop/tool_runtime.py:871-906 | a call waits for a slot only while as many others of its kind as there are slots have them |
| Sharing.NobodyWaitsAtBarrier | agent-loop/src/pi_agent_loop/tool_runtime.py:782-804 | without exclusive calls every request at the barrier is granted at once |
| Sharing.RunsFreely | agent-loop/src/pi_agent_loop/tool_runtime.py:716-914 | from any reachable state a call that conflicts with no unfinished call, with a slot for each, gets to run its tool by its own steps alone and touches nobody else |
| Sharing.ShareIff | agent-loop/src/pi_agent_loop/tool_runtime.py:716-914 | two calls can run their tools at the same time in some schedule if and only if neither is exclusive, both only read the keys they share, and the limits leave a slot for each |
| Sharing.DisjointCallsShare | agent-loop/src/pi_agent_loop/tool_runtime.py:716-914 | calls on disjoint keys that are not exclusive can run at the same time, whether they read or write |
| Sharing.AcquiresInOrder | agent-loop/src/pi_agent_loop/tool_runtime.py:797-906 | a call that waits has the barrier, then its smaller keys, then all its keys, then the slot of its tenant, and no slot that comes later |
| Sharing.SlotsByPriority | agent-loop/src/pi_agent_loop/tool_runtime.py:871-906 | in every schedule a step that gives a slot to one call leaves no call of higher priority waiting for it |
| LockTable.ExclusiveOverRuns | agent-loop/src/pi_agent_loop/tool_runtime.py:257-372 | after any acquires, renewals and releases with arbitrary clocks a key has one owner or only readers |
| LockTable.AllOrNothing | agent-loop/src/pi_agent_loop/tool_runtime.py:257-324 | a multi-key acquire takes every key or changes nothing |
| LockTable.TokensIncrease | agent-loop/src/pi_agent_loop/tool_runtime.py:300-324 | every grant gets a fencing token above all earlier ones |
| LockTable.RenewalProvesExclusion | agent-loop/src/pi_agent_loop/tool_runtime.py:338-353 | a successful renewal proves that no conflicting grant happened on its keys since the acquire |
| LeaseHistory.LeaseFollows | agent-loop/src/pi_agent_loop/tool_runtime.py:257-372 | what every operation makes of every lease, whatever the clocks: a granted acquire takes it, a renewal in time extends it, a release ends it, and so does the next grant of anybody once it has expired |
| LeaseHistory.GrantedIff | agent-loop/src/pi_agent_loop/tool_runtime.py:266-291 | an acquire is granted if and only if no lease of another owner on one of its keys is still running, or both only read |
| LeaseHistory.RenewedIff | agent-loop/src/pi_agent_loop/tool_runtime.py:338-353 | a renewal succeeds if and only if the owner's leases on all its keys are still running and no key is named twice |
| LockTable.ResourceLockBackend.TryAcquire | agent-loop/src/pi_agent_loop/tool_runtime.py:257-324 | the transaction, with its insert loop, is the acquire step of the table |
| LockTable.ResourceLockBackend.Renew | agent-loop/src/pi_agent_loop/tool_runtime.py:338-353 | the renewal is the renew step of the table |
| LockTable.ResourceLockBackend.Release | agent-loop/src/pi_agent_loop/tool_runtime.py:365-372 | the release is the release step of the table |
| EventQueue.PushKeeps | agent-loop/src/pi_agent_loop/event_stream.py:222-314 | after every push counters are exact, both limits and both high watermarks hold, the marker is last, and the event is accounted for as queued, dropped or coalesced |
| EventQueue.PopKeeps | agent-loop/src/pi_agent_loop/event_stream.py:341-361 | a delivery keeps all of that and takes one event out of the count |
| EventQueue.EndKeeps | agent-loop/src/pi_agent_loop/event_stream.py:316-335 | the marker always fits in its reserved slot |
| EventQueue.CandidateRemovable | agent-loop/src/pi_agent_loop/event_stream.py:398-418 | evicting the oldest evictable item keeps the index pointing to the newest item of every key |
| EventQueue.TrimBytesKeeps | agent-loop/src/pi_agent_loop/event_stream.py:389-396 | after trimming, the protected item's growth included, the bytes fit again |
| EventPolicy.PushDecides | agent-loop/src/pi_agent_loop/event_stream.py:222-314 | the verdict of every push on an open stream, from the contents of the buffer: nothing is evicted, coalesced or refused while the event fits |
| EventPolicy.RoomIffFixedFits | agent-loop/src/pi_agent_loop/event_stream.py:383-387 | eviction makes room if and only if the event fits beside what may not be evicted |
| EventPolicy.LastEviction | agent-loop/src/pi_agent_loop/event_stream.py:383-418 | no item is evicted that did not have to go |
| EventPolicy.CoalescedShows | agent-loop/src/pi_agent_loop/event_stream.py:252-282 | the queued event of a key that took an update in carries the newest state, and the joined text if it is a delta |
| EventPolicy.HighIsPeak | agent-loop/src/pi_agent_loop/event_stream.py:446-455 | in every run the high watermarks are the most that was ever queued |
| EventStream.PushFacts | agent-loop/src/pi_agent_loop/event_stream.py:222-314 | a push loses and reorders no structural event, and an accepted one joins the end |
| EventStream.StructuralQueuedOrFailed | agent-loop/src/pi_agent_loop/event_stream.py:242-300 | a structural event is queued or the stream fails for its consumer |
| EventStream.MergeText | agent-loop/src/pi_agent_loop/event_stream.py:107-120 | merging a delta into the newest event of its key appends it to the text of that key and to no other |
| EventStream.PushJoined | agent-loop/src/pi_agent_loop/event_stream.py:222-314 | a push that drops nothing appends its delta to the text of its key |
| EventStream.MergeNewest | agent-loop/src/pi_agent_loop/event_stream.py:107-120 | merging an update into the last queued event of its key shows the state the update would show behind it |
| EventStream.PushRenewed | agent-loop/src/pi_agent_loop/event_stream.py:222-314 | a push that drops nothing leaves the accepted event as the newest state of its key, and the newest states of all other keys as they were |
| EventStream.StreamOverRuns | agent-loop/src/pi_agent_loop/event_stream.py:222-444 | over any pushes, deliveries and closes: limits and counters hold; delivered and queued structural events are the accepted ones in order; accepted plus replaced equals delivered plus queued plus dropped plus coalesced; while nothing was dropped each key's text is complete and the last state seen of each key is the last one accepted; while nothing was coalesced either, what is seen is what was accepted |
| EventBuffer.BoundedEventStream.PushEvent | agent-loop/src/pi_agent_loop/event_stream.py:207-314 | the stream object takes the model's push step and no put meets a full queue |
| EventBuffer.BoundedEventStream.DropOldest | agent-loop/src/pi_agent_loop/event_stream.py:398-418 | draining and restoring the queue removes exactly the oldest evictable item and keeps the order |
| EventBuffer.BoundedEventStream.RemoveQueued | agent-loop/src/pi_agent_loop/event_stream.py:420-432 | draining and restoring removes exactly the given item |
| EventBuffer.BoundedEventStream.MakeSpace | agent-loop/src/pi_agent_loop/event_stream.py:383-387 | the eviction loop ends and says whether the incoming event fits |
| EventBuffer.BoundedEventStream.Trim | agent-loop/src/pi_agent_loop/event_stream.py:389-396 | the trimming loop ends in the model's trimmed state |
| EventBuffer.BoundedEventStream.CoalesceInto | agent-loop/src/pi_agent_loop/event_stream.py:252-282 | the merged update, or the new one alone if the merged one is too large, takes the place of the queued event of its key |
| EventBuffer.BoundedEventStream.Append | agent-loop/src/pi_agent_loop/event_stream.py:304-314 | an accepted event is appended and indexed, and a terminal one is followed by the marker |
| EventBuffer.BoundedEventStream.EndStream | agent-loop/src/pi_agent_loop/event_stream.py:316-335 | closing an open stream appends the marker once |
| EventBuffer.BoundedEventStream.Next | agent-loop/src/pi_agent_loop/event_stream.py:341-361 | the consumer gets the head, and the end only when the queue is empty and the stream is over |
| Transcript.AnalyserExact | agent-loop/src/pi_agent_loop/transcript.py:30-84 | the analyser accepts exactly the well-paired transcripts and reports exactly the unanswered calls in model order |
| Transcript.Analyze | agent-loop/src/pi_agent_loop/transcript.py:30-84 | the analyser's loop returns that verdict, with the first error |
| Transcript.SanitizedKeepsClosed | agent-loop/src/pi_agent_loop/transcript.py:140-155 | a sanitized terminal message leaves a closed transcript closed |
| Transcript.TextOnlyHasNoCalls | agent-loop/src/pi_agent_loop/transcript.py:140-155 | sanitizing removes every call and keeps all other blocks, each once and in its order |
| Transcript.SanitizedExactly | agent-loop/src/pi_agent_loop/transcript.py:140-155 | sanitizing takes the calls out of a failed or aborted reply and changes no other message |
| TranscriptRepair.RepairSpec | agent-loop/src/pi_agent_loop/transcript.py:87-127 | the repaired transcript is closed, the inserted results answer exactly the unresolved calls in order, each marked synthetic and with the given text, and erasing them gives back the input |
| TranscriptRepair.ClosedUntouched | agent-loop/src/pi_agent_loop/transcript.py:87-127 | a closed transcript is not changed |
| TranscriptRepair.RepairIdempotent | agent-loop/src/pi_agent_loop/transcript.py:87-127 | repairing twice is repairing once |
| TranscriptRepair.RepairUnresolved | agent-loop/src/pi_agent_loop/transcript.py:87-127 | the repair's loop computes the repair or reports the damage |
| RunRecovery.RecoverySpec | agent-loop/src/pi_agent_loop/agent.py:668-701 | recovery from any recoverable state closes the history, keeps every message and every staged result once, and invents results for exactly the remaining calls |
| RunRecovery.FailAnywhere | agent-loop/src/pi_agent_loop/agent.py:668-831 | a run cut after any event, or before its listeners returned, ends in a closed history in which every tool that ended has its real result exactly once |
| RunRecovery.UpdateRecoverable | agent-loop/src/pi_agent_loop/agent.py:739-773 | between an event's state update and its listeners the staged results still fit the history |
| RunRecovery.StepWaiting | agent-loop/src/pi_agent_loop/agent.py:739-829 | between two events every staged result waits for a pending call |
| RunRecovery.PlacedAtTheEnd | agent-loop/src/pi_agent_loop/agent.py:79-114 | staged results are placed only after the last messages, never among earlier given-up calls |
| RunRecovery.MaterializeStagedToolResults | agent-loop/src/pi_agent_loop/agent.py:79-114 | the loop over the messages computes the materialized history |
| RunRecovery.Agent.BeforeListeners | agent-loop/src/pi_agent_loop/agent.py:742-773 | the agent's fields after an event's update |
| RunRecovery.Agent.AfterListeners | agent-loop/src/pi_agent_loop/agent.py:822-829 | a delivered result message leaves the staging area |
| RunRecovery.Agent.HandleRunFailure | agent-loop/src/pi_agent_loop/agent.py:668-724 | the failed run's history is recovered, or left alone when it cannot be, and the failure message appended |
| CallIds.StripTwice | agent-loop/src/pi_agent_loop/loop.py:221-222 | trimming an id twice is trimming it once |
| CallIds.StripExactly | agent-loop/src/pi_agent_loop/loop.py:221-222 | trimming takes exactly the white space off both ends |
| LoopClosure.ProgramIdsHonest | agent-loop/src/pi_agent_loop/loop.py:219-233 | the program's trimming and its replacement ids are what the loop's theorems ask of ids, provided the random parts do not repeat |
| CallIds.CheckNew | agent-loop/src/pi_agent_loop/loop.py:212-245 | checked ids are distinct, non-blank, trimmed and new to the history, and names do not change |
| CallIds.CheckExact | agent-loop/src/pi_agent_loop/loop.py:219-245 | a call keeps its trimmed id exactly when it is not blank, unused before and first in its batch |
| CallIds.RejectedExact | agent-loop/src/pi_agent_loop/loop.py:219-291 | the ids reject the batch exactly when one of them was replaced |
| CallIds.SecondCheckRewritesNothing | agent-loop/src/pi_agent_loop/tool_runtime.py:2892-2951 | the dispatcher's own check finds nothing left to rewrite |
| CallIds.WithCallsKeepsText | agent-loop/src/pi_agent_loop/loop.py:219-245 | writing the ids back leaves every other block in place |
| CallIds.PreflightAccepted | agent-loop/src/pi_agent_loop/loop.py:196-291 | after the preflight the analyser accepts the reply if and only if every call is named |
| CallIds.NamelessCallBreaksTranscript | agent-loop/src/pi_agent_loop/loop.py:270-274 | a call with an empty name passes the preflight and is then rejected by the analyser |
| CallIds.CheckBatch | agent-loop/src/pi_agent_loop/loop.py:212-245 | the check's loop returns the ids and the verdict |
| AgentTurn.AttemptsExact | agent-loop/src/pi_agent_loop/loop.py:98-116 | in every interleaving of parallel retries exactly the remaining budget is admitted, the first denial is reported once, and denial is permanent |
| AgentTurn.BatchBudget | agent-loop/src/pi_agent_loop/loop.py:574-618 | a batch over budget, truncated or rejected enters no handler, every handler entry was charged, a denial ends the run, and the model is asked again if and only if the batch fits and is not truncated, and was rejected or ran without ending the run |
| AgentTurn.BatchCharges | agent-loop/src/pi_agent_loop/loop.py:574-618 | what a batch costs: nothing when it does not fit, its calls when nothing runs, and else its calls and as many retries as the budget has left |
| AgentTurn.ResultsAre | agent-loop/src/pi_agent_loop/loop.py:574-618 | each call of a batch is answered with what its tool said, or with the reason why no tool ran |
| LoopClosure.ClosedIff | agent-loop/src/pi_agent_loop/transcript.py:130-137 | an accepted transcript is closed if and only if every call has a result |
| LoopClosure.TurnCloses | agent-loop/src/pi_agent_loop/loop.py:548-618 | an accepted reply followed by one result for each call closes the turn |
| LoopClosure.TurnTidy | agent-loop/src/pi_agent_loop/loop.py:505-618 | a turn of an honest run, whose replies may repeat any id of their history, asks the model with a closed history and ends with one |
| AgentLoop.AskedAsIs | agent-loop/src/pi_agent_loop/loop.py:736-741 | with a closed history the repair before a model request inserts nothing |
| AgentLoop.AskedRepaired | agent-loop/src/pi_agent_loop/loop.py:736-741 | in any run the model is asked with a closed history: the history so far and a synthetic result for each call that lacks one |
| AgentLoop.RequestsClosed | agent-loop/src/pi_agent_loop/loop.py:736-741 | every request of every run, honest or not, has a closed history |
| AgentLoop.LoopRun.StartTurn | agent-loop/src/pi_agent_loop/loop.py:532-546 | a turn is charged and the waiting messages are injected in order |
| AgentLoop.LoopRun.StreamAssistant | agent-loop/src/pi_agent_loop/loop.py:727-953 | the request sees the repaired history, and the sanitized, checked reply is appended to it |
| AgentLoop.LoopRun.TryConsume | agent-loop/src/pi_agent_loop/loop.py:98-116 | one retry is admitted, denied, or denied for the first time |
| AgentLoop.LoopRun.ExecuteHandlers | agent-loop/src/pi_agent_loop/loop.py:1185-1226 | first attempts enter freely, retries ask the shared budget |
| AgentLoop.LoopRun.RunTools | agent-loop/src/pi_agent_loop/loop.py:570-618 | each call of the reply gets its result, and both budgets and the end of the run follow the model |
| AgentLoop.TurnBudgets | agent-loop/src/pi_agent_loop/loop.py:505-671 | a turn keeps both budgets, and ends the run exactly when a denial was reported |
| AgentLoop.TurnKeepsAccount | agent-loop/src/pi_agent_loop/loop.py:536-546 | a turn injects all waiting messages once and in order |
| AgentLoop.MoreIffAsks | agent-loop/src/pi_agent_loop/loop.py:574-618 | after a turn that no reason ends, tools ask for another request if and only if the reply has calls whose batch was rejected or does not terminate |
| AgentLoop.TopCheckNeverFires | agent-loop/src/pi_agent_loop/loop.py:510-528 | while a run goes on its turns are below the limit, so the check before a turn does nothing |
| AgentLoop.Round | agent-loop/src/pi_agent_loop/loop.py:532-707 | one round is a turn and, unless the run ends, exactly one poll of the steering queue |
| AgentLoop.RoundKeeps | agent-loop/src/pi_agent_loop/loop.py:532-707 | a round ends the run with all guarantees and for a reason the last turn shows, or leaves it open whether the run goes on |
| AgentLoop.QuietDecides | agent-loop/src/pi_agent_loop/loop.py:507-714 | after a turn that asks for nothing and an empty steering poll, the follow-up queue is polled and alone decides whether the run goes on |
| AgentLoop.InnerLoop | agent-loop/src/pi_agent_loop/loop.py:507-708 | the inner loop goes on exactly while the last turn asks for another request or the steering poll after it returned messages |
| AgentLoop.RunAgentLoop | agent-loop/src/pi_agent_loop/loop.py:487-715 | model requests and handler entries stay within their budgets and at most one denial is reported; every turn but the last led to the next one, and the last one to the ending that is reported, which is idle if and only if it asked for nothing and both polls after it were empty; the polls made are exactly one of steering at the start and after every turn and one of follow-ups after every quiet turn; the final state is that of the turns one after another, every drained message appears once and in order, and in an honest run every request sees a closed history to which nothing was added but the new messages |
| TurnEvents.BatchLegal | agent-loop/src/pi_agent_loop/tool_runtime.py:1840-1907 | a dispatched batch whose tools end in any order is a legal run of the agent that commits every result |
| TurnEvents.TogetherLegal | agent-loop/src/pi_agent_loop/loop.py:1051-1145 | so is a batch that was denied, truncated or rejected |
| TurnEvents.TurnLegal | agent-loop/src/pi_agent_loop/loop.py:505-618 | a whole turn of an honest run is a legal run of the agent and leaves it with the loop's history |
| RunEvents.HonestRunLegal | agent-loop/src/pi_agent_loop/loop.py:487-715 | all events of an honest run, over any number of turns with their tools ending in any order, are a legal run of the agent that ends with the loop's history |
| RunEvents.HonestRunFailsAnywhere | agent-loop/src/pi_agent_loop/agent.py:668-831 | an honest run may fail after any event, or while listeners deal with the next one: the conversation ends closed and every tool that ended has its real result exactly once |
| Dispatch.SegmentsConcatenate | agent-loop/src/pi_agent_loop/tool_runtime.py:1857-1894 | the segments put together are the scheduled calls in model order |
| Dispatch.ExclusiveIsolated | agent-loop/src/pi_agent_loop/tool_runtime.py:1857-1894 | of two scheduled calls of which one is exclusive, the earlier ends before the later starts, in every interleaving |
| Dispatch.ByPriorityIs | agent-loop/src/pi_agent_loop/tool_runtime.py:2020-2027 | tasks are created by priority, ties in model order, none left out |
| Dispatch.BatchIsolated | agent-loop/src/pi_agent_loop/tool_runtime.py:1800-1894 | in either mode all guards come before any tool; of two calls that run, the first ends before the other starts unless the batch is parallel and neither is exclusive |
| Dispatch.RanExactly | agent-loop/src/pi_agent_loop/tool_runtime.py:1949-2037 | exactly the calls reported as run have started and ended |
| BatchOutcomes.RunsIff | agent-loop/src/pi_agent_loop/tool_runtime.py:1949-1992 | a call of a checked batch runs if and only if its guard did not block it and, one by one, no call up to it found the run cancelled |
| BatchOutcomes.ReportedAs | agent-loop/src/pi_agent_loop/tool_runtime.py:1746-1992 | a batch is refused as a whole if and only if one of its calls is not canonical; otherwise a call is blocked, skipped or run, each exactly when it should be |
| BatchOutcomes.GuardsInOrder | agent-loop/src/pi_agent_loop/tool_runtime.py:1800-1853 | guards run in model order |
| BatchOutcomes.RunTogether | agent-loop/src/pi_agent_loop/tool_runtime.py:1857-1894 | two calls of a parallel batch with no exclusive call from the one to the other run together |
| Dispatch.RunGroup | agent-loop/src/pi_agent_loop/tool_runtime.py:1994-2037 | every call of a group gets its slot, whatever the priorities |
| Dispatch.RunSegments | agent-loop/src/pi_agent_loop/tool_runtime.py:1855-1894 | the loop over the scheduled calls runs the segments one after another |
| Dispatch.RunSequential | agent-loop/src/pi_agent_loop/tool_runtime.py:1949-1992 | calls run one by one until the cancellation, and all later ones are skipped |
| Dispatch.DispatchMany | agent-loop/src/pi_agent_loop/tool_runtime.py:1746-1947 | one outcome for each call in model order, and a batch with one bad call runs no guard and no tool |
| DispatchedTurn.DispatchReply | agent-loop/src/pi_agent_loop/tool_runtime.py:1761-1907 | for the calls of a preflighted reply the dispatcher's own id check changes nothing, its outcomes are for exactly these calls in order, and its result messages close the turn |
| ToolOutcome.StepKeeps | agent-loop/src/pi_agent_loop/tool_runtime.py:2135-2347 | every step of handler, heartbeat, timeout, cancellation and release keeps the record of what interfered |
| ToolOutcome.NeverToolExact | agent-loop/src/pi_agent_loop/tool_runtime.py:2373-2527 | for a tool never to be replayed whose handler was entered, every race is reported as what the handler said if nothing interfered, and as unknown otherwise |
| ToolOutcome.ReplayableToolExact | agent-loop/src/pi_agent_loop/tool_runtime.py:2135-2527 | for a tool that may be replayed whose handler was entered, the report of every race of completion, timeout, cancellation and lease loss |
| ToolOutcome.UnknownIffNever | agent-loop/src/pi_agent_loop/tool_runtime.py:2373-2527 | every interrupted execution is reported as unknown if and only if the tool must never be replayed |
| ToolOutcome.ReplayableToolDegrades | agent-loop/src/pi_agent_loop/tool_runtime.py:2506-2527 | a replayable tool whose handler returned can be reported as plainly cancelled |
| ToolOutcome.LoggedOverRuns | agent-loop/src/pi_agent_loop/tool_runtime.py:2135-2527 | what is on record about an attempt is what happened in it |
| ToolOutcome.NotEnteredExact | agent-loop/src/pi_agent_loop/tool_runtime.py:2373-2527 | for an attempt whose handler was never entered, the report of every race of refusal, timeout, cancellation and lease loss |
| ToolOutcome.HookExact | agent-loop/src/pi_agent_loop/tool_runtime.py:1673-1713 | what a hook makes of an outcome that is not unknown |
| ToolOutcome.HookCannotDegrade | agent-loop/src/pi_agent_loop/tool_runtime.py:1673-1713 | no hook rewrites an unknown outcome or turns a confirmed success with side effects into an error |
| ToolOutcome.NeverToolNeverDegrades | agent-loop/src/pi_agent_loop/tool_runtime.py:1673-1713 | over every race and every hook an error of such a tool is unknown or was declared by its handler |
| PlanGraph.SortedAcyclic | agent-loop/src/pi_agent_loop/multi_agent.py:1122-1139 | a plan whose tasks can be put after their dependencies has no cycle |
| PlanGraph.Sorts | agent-loop/src/pi_agent_loop/multi_agent.py:1122-1139 | the tasks of a plan without a cycle can be put after their dependencies |
| PlanGraph.Visit | agent-loop/src/pi_agent_loop/multi_agent.py:1127-1136 | a visit sorts one node and all its dependencies, or refuses only because there is a cycle |
| PlanGraph.AssertAcyclic | agent-loop/src/pi_agent_loop/multi_agent.py:1122-1139 | the check accepts exactly the plans without a cycle |
| Orchestrator.InvOverRuns | agent-loop/src/pi_agent_loop/multi_agent.py:1141-1255 | over every interleaving with cancellation, deadline and storage failures a published success is stored, exactly the finished tasks are published, and a storage error shows as a failed task |
| Orchestrator.PublishedFinal | agent-loop/src/pi_agent_loop/multi_agent.py:1141-1255 | a published result is the same in every later state of the run |
| Orchestrator.WorkersStartAfterDependencies | agent-loop/src/pi_agent_loop/multi_agent.py:1153-1199 | a worker starts only when every dependency is published as succeeded and acknowledged by the store |
| Orchestrator.NeverStuck | agent-loop/src/pi_agent_loop/multi_agent.py:1141-1255 | in every run of a plan that passes the acyclicity check, while tasks remain, one has all dependencies published and an enabled step |
| Orchestrator.RunsEnd | agent-loop/src/pi_agent_loop/multi_agent.py:1141-1255 | a run takes at most three steps for each task and one to stop it |
| Orchestrator.StepsUseUp | agent-loop/src/pi_agent_loop/multi_agent.py:1141-1255 | every step uses up some of what a run has left to do |
| Orchestrator.FinishRun | agent-loop/src/pi_agent_loop/multi_agent.py:1042-1084 | a normal return has the published result of each task, or cancelled in a stopped run and failed in any other for a task without one, and counts as succeeded if and only if the run was not stopped and all tasks succeeded |
| TaskOutcomes.OutcomeExplained | agent-loop/src/pi_agent_loop/multi_agent.py:1153-1248 | in every run a task whose result could not be stored has failed; any other, unless a stopped run cut it short, is cancelled after a cancelled dependency, skipped after another one that did not succeed, and otherwise exactly what its worker came to |
| TaskOutcomes.WorksOnce | agent-loop/src/pi_agent_loop/multi_agent.py:1141-1255 | a task works at most once |
| TaskOutcomes.StartsLogged | agent-loop/src/pi_agent_loop/multi_agent.py:1180-1207 | the log of started workers has every task that works or has worked, and only tasks that were decided |
| HealthRegistry.BreakerOverRuns | agent-loop/src/pi_agent_loop/model_routing.py:327-402 | closed if and only if below the failure threshold, probes only while half-open, at most one grant more than cancellations in one half-open period, and a probe out exactly when one was granted since the last cancellation |
| HealthRegistry.RefusedWhileOpen | agent-loop/src/pi_agent_loop/model_routing.py:327-337 | the exact condition under which a candidate may be contacted |
| HealthRegistry.StateByHistory | agent-loop/src/pi_agent_loop/model_routing.py:327-402 | the breaker is open if and only if the failures since the last success reach the threshold, and the cooldown counts from the last of them |
| HealthRegistry.GrantedByHistory | agent-loop/src/pi_agent_loop/model_routing.py:327-374 | when a candidate may be contacted, told by its records alone |
| HealthRegistry.RecordsDecide | agent-loop/src/pi_agent_loop/model_routing.py:339-366 | a success closes the breaker and forgets the failures; a failure at the threshold, a failed probe included, starts the cooldown anew |
| HealthRegistry.ProbeGrantedExactly | agent-loop/src/pi_agent_loop/model_routing.py:327-374 | in a half-open period a probe starts if and only if none was granted since the period began or the last cancellation |
| HealthRegistry.CancellationFreesProbe | agent-loop/src/pi_agent_loop/model_routing.py:368-374 | in every reachable half-open state a cancellation recorded by anyone lets one more probe start |
| HealthRegistry.TwoProbes | agent-loop/src/pi_agent_loop/model_routing.py:327-374 | for any threshold and cooldown some half-open period has two probes |
| HealthRegistry.Registry.TryAcquireCandidate | agent-loop/src/pi_agent_loop/model_routing.py:327-337 | the registry takes the acquire step for one candidate and touches no other |
| HealthRegistry.Registry.Record | agent-loop/src/pi_agent_loop/model_routing.py:339-374 | likewise for the three records |
| ModelRouter.PlayIs | agent-loop/src/pi_agent_loop/model_routing.py:873-950 | an attempt loses and reorders nothing, pushes nothing before something is visible and holds nothing back afterwards |
| ModelRouter.VisibleExactly | agent-loop/src/pi_agent_loop/model_routing.py:921-938 | an attempt commits exactly when a visible event comes while all events up to it fit the buffer |
| ModelRouter.NoSplicing | agent-loop/src/pi_agent_loop/model_routing.py:617-769 | for every behaviour of the candidates the output is the beginning of one candidate's stream followed by exactly one terminal event, no candidate is contacted after visible output, every contact has its health record, and rank order and attempt limit hold |
| ModelRouter.EachOnce | agent-loop/src/pi_agent_loop/model_routing.py:617-630 | no candidate is tried twice |
| ModelRouter.OneAttempt | agent-loop/src/pi_agent_loop/model_routing.py:866-954 | the attempt's loop computes the attempt |
| ModelRouter.RunRoute | agent-loop/src/pi_agent_loop/model_routing.py:570-769 | the routing loop computes the route, of which `Failover` says why it goes on and how it ends |
| Failover.TurnIs | agent-loop/src/pi_agent_loop/model_routing.py:700-769 | a contacted candidate hands over if and only if it was not cancelled, nothing of it became visible, and its stream ended with a retryable provider error; its health record and what reaches the output follow from how it ended |
| Failover.RouteExact | agent-loop/src/pi_agent_loop/model_routing.py:617-769 | every route contacts exactly the candidates it can acquire, goes on from one to the next exactly when the first hands over, and ends as the last one says or for want of candidates, attempts or time |
| Failover.TerminalMeans | agent-loop/src/pi_agent_loop/model_routing.py:617-769 | done if and only if the last candidate ended normally and uncancelled; failed by a candidate if and only if its error may not be retried or came after visible output; exhausted only after every candidate that could be acquired, up to the limit |
| ChildInbox.ChangeKeeps | agent-loop/src/pi_agent_loop/children.py:190-297 | every edit keeps the shared budget in each bounded dimension, the capacity, and everything a later reader relies on |
| ChildInbox.EnqueueIdempotent | agent-loop/src/pi_agent_loop/children.py:190-203 | enqueueing an accepted message again changes nothing in any later record, and other work under its id is refused |
| InboxEdits.AcceptedIff | agent-loop/src/pi_agent_loop/children.py:190-246 | a message with a new id is accepted if and only if it is well-formed, comes before the deadline and leaves a record within all limits; it then joins the end, queued |
| InboxEdits.RefusedFor | agent-loop/src/pi_agent_loop/children.py:190-246 | every reason for which a message is refused is one that holds |
| InboxEdits.EditMeans | agent-loop/src/pi_agent_loop/children.py:270-499 | a finished message carries its outcome, a cancellation marks exactly the open messages of its children, an acknowledgement the delivery it names; each is refused only for the reason given |
| ChildControllers.FinishOrder | agent-loop/src/pi_agent_loop/children.py:326-339 | finishing the oldest open message of a child keeps its results in order |
| ChildControllers.InvOverRuns | agent-loop/src/pi_agent_loop/children.py:118-151 | any number of stalling and crashing controllers with expiring claims keep the log and their own choices consistent |
| ChildControllers.SharedBudgetHolds | agent-loop/src/pi_agent_loop/children.py:226-240 | no record ever allocates more than a ceiling, and results come in the order of the messages |
| ChildControllers.NothingTakenBack | agent-loop/src/pi_agent_loop/children.py:483-499 | deadline, accepted work and terminal results are the same in all later records |
| ChildControllers.ApplyChange | agent-loop/src/pi_agent_loop/children.py:118-151 | the retry loop returns an edit of the record right before its own, whatever others append meanwhile |
| ChildRuns.RecordsTraced | agent-loop/src/pi_agent_loop/children.py:118-151 | every record of the log is the edit of the one before by an operation that was asked for |
| ChildRuns.ResultsAreReported | agent-loop/src/pi_agent_loop/children.py:465-499 | the result of a message is, in every record of every run, an outcome that a worker reported, with its status |
| ChildRuns.EditLands | agent-loop/src/pi_agent_loop/children.py:118-151 | an edit that meets no other append is appended, or refused without a change |
| ChildRuns.ResultLands | agent-loop/src/pi_agent_loop/children.py:298-345 | a controller alone with an unclaimed child finishes its oldest open message and changes nothing else |
| ChildRuns.RetryLands | agent-loop/src/pi_agent_loop/children.py:124-151 | a result that met a newer record lands with the next report while the claim is valid |
| CancellationTree.Token.Child | agent-loop/src/pi_agent_loop/cancellation.py:23-34 | a new child joins the tree and inherits a cancellation with its reason |
| CancellationTree.Token.CreateChild | agent-loop/src/pi_agent_loop/cancellation.py:78-85 | the tree stays a tree with one more token |
| CancellationTree.Token.Cancel | agent-loop/src/pi_agent_loop/cancellation.py:54-68 | exactly the tokens attached below are cancelled, first reasons are kept, and it ends |
| CancellationTree.Token.CancelChildren | agent-loop/src/pi_agent_loop/cancellation.py:67-68 | the loop over the children reaches exactly their subtrees |
| CancellationTree.Token.Detach | agent-loop/src/pi_agent_loop/cancellation.py:87-93 | a detached token leaves its parent's children and nothing else changes |
| CancellationTree.DescendantsCancelled | agent-loop/src/pi_agent_loop/cancellation.py:54-68 | whatever is attached below a cancelled token is cancelled |
| CancellationTree.OnePath | agent-loop/src/pi_agent_loop/cancellation.py:23-34 | tokens with a common descendant lie on one path, so siblings are never reached |
| CancellationTree.AncestorsSpared | agent-loop/src/pi_agent_loop/cancellation.py:54-68 | a cancellation never reaches an ancestor |

## Left out

- Scheduler: the distributed lock backend, its heartbeat and the statistics counters are not part of the composed state machine; a call that acquires always has a timeout, so its futures are shielded and cancelled only through its own cleanup; resource keys are positions in their sort order.
- Scheduler.RunsAreSafe: the scheduler, its leases and the lock registry are steps of one state machine on values, one step for each stretch between two suspension points; objects updated in place inside such a stretch are not distinguished.
- FairSemaphore.FairPrioritySemaphore.GrantLocked: the binary heap of the standard library is a sorted sequence, so the cost of its operations is not modelled.
- LockTable: the statement text, the journal mode and the polling loop of the database are replaced by atomic table steps with an arbitrary clock.
- EventStream.StreamOverRuns: backpressure callbacks, statistics snapshots and classifiers that raise are not modelled; object identity is a number that grows along the queue; event kinds and keys are those of the two shipped streams.
- Transcript.AnalyserExact: the index of the assistant message reported with an unresolved call is dropped.
- RunRecovery.FailAnywhere: a failure inside the failure events themselves, the streaming message and the display-only set of running tools are not modelled.
- CallIds: lemmas hold for any trimming and any generator that satisfy `Usable`; the run lemmas assume that generated ids never repeat and appear in no reply before they are made.
- LoopClosure.TurnTidy: assumes that models name their calls, which `CallIds.NamelessCallBreaksTranscript` shows to be needed, and that injected messages are neither replies nor results.
- AgentLoop.RunAgentLoop: hooks that replace the context or the input of a request, exceptions from the model stream and the policy part of the preflight are parameters or absent; without a turn limit the run is observed up to a horizon of turns.
- AgentLoop.Round: the two in-memory queues behind the polls and their drain modes are functions of the poll number.
- Dispatch.DispatchMany: an exception or cancellation that aborts a whole group is not modelled; such a batch returns nothing.
- ToolOutcome: progress updates, tools with a retry policy and telemetry that raises are not modelled.
- Orchestrator.InvOverRuns: tasks that share the result tables are steps of a state machine on values, like the scheduler.
- Orchestrator: messages between workers, replicas and arbitration, resource locks of workers and the eviction of old runs are not modelled; a task's workers report one outcome.
- ModelRouter.NoSplicing: scoring and errors of the ranking, telemetry and a route whose own task is cancelled are not modelled; in the last case no terminal event and no health record follow.
- ChildInbox.ChangeKeeps: the edits work on a copy of the record, so they are functions of it.
- ChildControllers: starting a child host, lease renewal and the version of the configuration are not modelled; the journal is a log with a compare-and-append step that also checks the claim.
- ChildRuns.ResultsAreReported: that a controller reports a message with a cancellation request, or one past the deadline, as cancelled before it runs is a property of the reported outcome and not modelled.
- Document parsing, providers, subprocesses, telemetry, redaction and configuration files: foreign calls or shallow branching.
- Planning, session, approval and write state machines: not part of this model.
