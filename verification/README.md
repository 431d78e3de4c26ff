# Verified model of the chat and agent platform

A Dafny model of how the platform orchestrates tasks, runs and device leases, with proofs of what that
orchestration keeps, and of five smaller algorithms around it.

`dafny verify dfyconfig.toml` checks everything.

## What is modelled

**The agent service** (`agent-service/app`). `Tables` holds the rows and the queries of its database;
`TaskCommands`, `RunCommands` and `LeaseCommands` say what each method of `AgentStore` does to them;
`Commands` gathers the requests of endpoints, workers and devices into one command type, with `Step`
for one command and `Exec` for a history of them. Every public method is one uninterrupted step: the
service is synchronous code on one event loop. A uuid is a number that was never handed out before and
time is a monotone number of seconds. The theorems hold of every history, so of every interleaving:

- `DelegationTree`, `TaskHistory`, `TaskTheorems`: delegation builds forests of bounded depth and
  width, and never promises more tokens than a task has.
- `AttemptHistory`, `AttemptEffects`, `LifecycleTheorems`, `FenceTheorems`, `Handover`: attempts,
  results, closers, versions and fences, and what the successful commands achieve.
- `TaskOutcomes`, `RunOutcomes`: exactly when each command succeeds and what it changes, with the
  conditions written out; the token, call and run limits over every history.
- `ReplayTheorems`: idempotency keys, repeated tool calls and refused commands.
- `RunHistory`, `RunEffects`, `RunTheorems`: every command is at most one of fourteen moves on the run
  tables; starts, limits, traces and the queue.
- `LeaseTheorems`, `LeaseProtocol`, `ExchangeOutcomes`, `LocalAgent`: leases on the server, and server
  and daemon together over sockets that break and messages that are lost, reordered or repeated.
- `ToolLoop`, `ToolBounds`, `ToolOutcomes`, `Orchestrator`: the tool loop of `orchestrate_run` with
  suspensions, confirmations, cancellations, crashes and recoveries, how often it carries out tools and
  how a run ends.
- `AgentStore`: the same commands as a class that reads and updates one database step by step, with the
  source's loops for sums, maxima and the ancestor walk. Each method is proved equal to its command; the
  table below names those with more to say than that.
- `Scenario`: one short history, step by step, for the examples.

**Around it**: `EventReplay` and `EventSockets` (numbered events to a reconnecting browser),
`MessageMerge`, `MergeCut` and `MessageLists` (the cached-message merge), `PackedKeys` and `Pagination` (packed
table keys and paging), `ContextBudget` (choosing context and tools), `ReplyPipeline`,
`ReplyOutcomes` and `GatewayStore` (crash-recovering replies), `RateLimit` (the fixed window) and `Journal` (the daemon's
log).

Code that works by changing things is a class or a method with loops, proved against a specification
function; the properties are lemmas about the specification. Pure code is functions and lemmas.

## What the proofs found

- An assignment to an unknown agent is refused only after the open assignment of the task was
  superseded: the task is left without an executor (`RefusedAssignmentChangesNothingIff`,
  `RefusedAssignmentLosesTheExecutor`).
- `transition_task` itself would hand a task over without a result; no endpoint asks for it
  (`DeliveryNeedsExecutor`).
- Task tools are fenced by the assignment, the projection of a run's state is not: the run of an
  overtaken attempt can send its task back, in exactly known states, but never deliver it
  (`ProjectionMovesIff`, `OvertakenRunSendsTaskBack`, `OvertakenRunNeverDelivers`).
- The counter of tool calls starts anew with each crash recovery, and an approved call is carried out
  again for each worker that dies before marking it; both are bounded, and the bounds are reached
  (`ToolCallsWithinRecoveredLimits`, `CarriedOncePlusDeaths`).
- An event whose publication failed is left out once a later one arrives
  (`UnpublishedEventIsLost`).
- Default pages and pages after a message scan beyond their conversation (`NewestPageIsExactIff`,
  `PageAfterIsExactIff`).
- The estimate of a shortened message counts characters as single bytes (`EstimateCoversIff`).
- Merging a cached list with itself doubles entries without identifiers (`SelfMergeIsCleanIff`), an
  overwritten id is forgotten (`ReplacedIdIsForgotten`), and a limit of 0 keeps everything
  (`ZeroKeepsEverything`). An updated entry can be cut in favour of another of the same time
  (`UpdateIsCut`).
- `chat-server/README.md` says there is no rate limit; the code has one, and the model follows it.

## Model

| member | source | states |
|---|---|---|
| `TaskStates.PathsEndAtTerminalsAndCloseAfterDelivery` | agent-service/app/task_state_machine.py:8-28 | Along any path of allowed task transitions a terminal state is final, and `closed` is reached only by way of `awaiting_proposer_close` |
| `RunStates.ActiveIffUnfinished` | agent-service/app/state_machine.py:6-14 | A run counts as active exactly as long as another state can follow, and is terminal otherwise |
| `DelegationTree.WalkFindsAncestor` | agent-service/app/main.py:1140-1149 | Over any table in which parents are older, the ancestor walk ends at the end of the chain and counts its depth; it meets no task twice and no missing row |
| `DelegationTree.ForestStepKeepsTree` | agent-service/app/main.py:1140-1170 | What a delegation checked before its insert keeps the whole forest rooted, at most 16 deep, at most 1000 wide, and funded |
| `TaskTheorems.ForestAlways` | agent-service/app/main.py:1119-1236 | In every reachable state parent links form a forest whose recorded roots are the ends of the ancestor chains, at most 16 deep, at most 1000 subtasks per tree, with no parent overdrawn |
| `TaskTheorems.WalkAlwaysReachesRoot` | agent-service/app/main.py:1140-1158 | In every reachable state the walk from any task ends at its recorded root within 16 steps, so the cycle and broken-chain errors cannot occur; no tree has more than 1000 subtasks |
| `TaskTheorems.BroodWithinParents` | agent-service/app/main.py:1171-1179 | The budgets of all children of any set of tasks sum to at most the budgets of that set |
| `TaskTheorems.BudgetsNeverOverdrawn` | agent-service/app/main.py:1167-1179 | In every reachable state: direct children's token budgets sum to at most the parent's, each level of a tree to at most the root's, a whole tree to at most 17 times the root's |
| `TaskHistory.StepTasks` | agent-service/app/main.py:1554-1588 | Whatever command runs, every task row keeps its head, moves along the table, records each change of state in its version, ends only by a closing command with its proposer as closer, and at most one well-formed task is added |
| `LifecycleTheorems.AttemptsAndResults` | agent-service/app/main.py:971-1004 | In every reachable state the attempts of a task are exactly 1 to n, each used once, and only the highest can be `assigned` or `accepted` |
| `LifecycleTheorems.ResultsComeFromAttempts` | agent-service/app/main.py:1040-1090 | In every reachable state each assignment has at most one result, every result's assignment is completed, and a task in `awaiting_proposer_close` or `closed` has a result |
| `LifecycleTheorems.DeliveryNeedsExecutor` | agent-service/app/main.py:1554-1588 | The store's transition method keeps delivered tasks backed by a result exactly when its target is not `awaiting_proposer_close`; the endpoints never pass that target |
| `FenceTheorems.AssignmentsOnlyAge` | agent-service/app/main.py:1000-1004 | Over any stretch of a history assignments keep their identity, are never deleted, and never open again |
| `FenceTheorems.OvertakenRunIsPowerless` | agent-service/app/main.py:1691-1708 | Once a run's attempt is over, every task tool it calls, then or at any later time, is denied and changes nothing |
| `FenceTheorems.OvertakenRunNeverDelivers` | agent-service/app/main.py:1614-1682 | Whatever a run says once its attempt is over, at any later time, delivers no result and can only move the run's own task, never to be assigned, handed over, closed or cancelled |
| `FenceTheorems.ProjectionMovesIff` | agent-service/app/main.py:1614-1682 | A projection moves its run's task exactly when the task's state is one of a given few per run state, whether or not the run's attempt is current; one version on, nothing else moved, no result added |
| `FenceTheorems.OvertakenProjectionMovesIff` | agent-service/app/main.py:1614-1682 | In any history the projection of a run whose attempt is over moves its task exactly in those states, and touches no assignment |
| `FenceTheorems.OvertakenRunSendsTaskBack` | agent-service/app/main.py:1659-1679 | A history of commands in which an overtaken run's failure sends a task in progress under its second attempt back to its proposer |
| `LifecycleTheorems.VersionsTellStates` | agent-service/app/main.py:1363-1379 | Over any stretch of a history a version never decreases, equal versions mean equal states, terminal states never change |
| `LifecycleTheorems.ProposerCloses` | agent-service/app/main.py:1264-1283 | In every reachable state a task's recorded closer is its proposer if the task is closed or cancelled, and absent otherwise |
| `LifecycleTheorems.OnlyProposersEndTasks` | agent-service/app/main.py:1614-1682 | Only the proposer's commands end a task, never the projection of a run, a device or a budget; `closed` is entered only from `awaiting_proposer_close` |
| `LifecycleTheorems.OneExpectedVersionWins` | agent-service/app/main.py:1409-1430 | Of two commands expecting the same version, once the first moved the task's state the second leaves the whole store as it is, whatever happened in between |
| `Handover.AssignmentHandsOver` | agent-service/app/main.py:1351-1395 | A successful assignment supersedes exactly the task's open assignments and leaves one open, a new one for the chosen agent, in a new conversation, with its run waiting for exactly that assignment and the version counted and answered |
| `Handover.ReworkHandsOver` | agent-service/app/main.py:1397-1449 | A successful rework does the same for the agent the task already has and always counts a new version |
| `Handover.DelegationAddsFundedChild` | agent-service/app/main.py:1119-1236 | A successful delegation adds exactly one child under the parent's root, proposed by the delegating agent, funded from what the parent neither used nor promised, and handed to the target |
| `Handover.DeliveredOnce` | agent-service/app/main.py:1040-1090 | An assignment that has delivered a result never delivers another, at any later time: the submission is refused and changes nothing |
| `TaskOutcomes.DelegationSucceedsIff` | agent-service/app/main.py:1119-1236 | In every reachable state a delegation adds a child exactly when the parent's state allows it, the caller accepted an assignment of it, the target is the owner's, the child fits the depth, the number of subtasks and the active runs of the parent's whole tree, and its tokens fit what is neither used nor promised; otherwise nothing changes and the reply tells a denial from an error |
| `TaskOutcomes.TreesFollowDescent` | agent-service/app/main.py:1150-1166 | In every reachable state the subtasks and active runs that those limits count are those of the root and of everything that descends from it |
| `TaskOutcomes.DelegatedRunIff` | agent-service/app/main.py:1119-1236 | In every reachable state the child of a delegation gets a run exactly when its agent takes one more |
| `TaskOutcomes.CollectsLastDelivery` | agent-service/app/main.py:1238-1262 | In every reachable state collecting succeeds exactly for the proposer of a delivered direct child, and answers the text delivered last in the history, however often the child was reworked |
| `TaskOutcomes.AssignmentSucceedsIff` | agent-service/app/main.py:1351-1395 | A first assignment succeeds exactly for the task's user, at the version they expect, from one of four states, to an agent of theirs; its run is created exactly when the agent and the task's budget take one more |
| `TaskOutcomes.ReworkSucceedsIff` | agent-service/app/main.py:1397-1449 | A first rework succeeds exactly for the task's user, at the version they expect, after a delivery or when attention is needed, while the agent it had is theirs; its run likewise |
| `TaskOutcomes.RequestSucceedsIff` | agent-service/app/main.py:1554-1612 | A proposer's first request is carried out exactly at the expected version and from the states named per verb, and then the task's state, version and closer are exactly those |
| `TaskOutcomes.CreationSucceedsIff` | agent-service/app/main.py:1285-1349 | A first creation succeeds exactly with a valid budget and an agent of the user, if one is named; in every reachable state it adds one root task whose run waits on that agent alone, since a new task has spent nothing |
| `TaskOutcomes.FirstCallIsCarriedOut` | agent-service/app/main.py:1691-1808 | A bound run's first call of a tool is carried out for its own task and assignment in its agent's name; its reply is remembered, except that of a malformed or refused call |
| `TaskOutcomes.AcceptOutcome` | agent-service/app/main.py:1752-1757 | Accepting marks an assignment that nobody has taken up and changes nothing else |
| `TaskOutcomes.DeclineOutcome` | agent-service/app/main.py:1758-1776 | Declining closes the assignment and stops the run; the task goes back to its proposer, one version on, unless it is there or has ended |
| `TaskOutcomes.AskOutcome` | agent-service/app/main.py:1711-1751 | Asking the proposer sends the task back, one version on, exactly from the states that allow it; a progress note changes nothing |
| `TaskOutcomes.CloseOutcome` | agent-service/app/main.py:1264-1283 | An agent closes exactly a delivered child that it proposed itself, under a task it may read, and is its recorded closer |
| `ReplayTheorems.KeyAnswersOnce` | agent-service/app/main.py:852-874 | A create, assign, reopen or transition command under an idempotency key that succeeded before returns the first response and leaves the whole store unchanged, after arbitrary commands in between and whatever its other arguments |
| `ReplayTheorems.RepeatedCommandIsNoop` | agent-service/app/main.py:1306-1308 | The very same keyed command sent again is a no-op with the first response |
| `ReplayTheorems.RepeatedToolCallIsNoop` | agent-service/app/main.py:1708-1710 | A task tool call repeated under its call id changes nothing; it gets the first response while the run holds its task and is denied afterwards |
| `ReplayTheorems.RefusedAssignmentChangesNothingIff` | agent-service/app/main.py:1351-1367 | A refused assignment leaves the store as it was exactly when it is not the case that all task guards passed, the agent is unknown and an assignment was open |
| `ReplayTheorems.RefusedAssignmentLosesTheExecutor` | agent-service/app/main.py:1366-1367 | A history of commands in which an assignment to an unknown agent is refused and the task has lost its only open assignment |
| `ReplayTheorems.RefusalChangesNothingIff` | agent-service/app/main.py:1306-1443 | Of all create, assign, reopen and transition commands, a refused one leaves the store as it was exactly unless it is such an assignment |
| `RunEffects.StepMoves` | agent-service/app/main.py:2807-3199 | Every command is at most one guarded move on runs, dispatches, outbox, invocations and traces, and starts a run exactly when that move does |
| `RunTheorems.LimitsAlwaysHold` | agent-service/app/main.py:782-819 | In every reachable state a task with a tool-call limit has at most that many recorded invocations and one with a run limit at most that many active runs |
| `RunTheorems.HomesAndTraces` | agent-service/app/main.py:2807-2884 | In every reachable state a run has exactly one of a queueing outbox row and a dispatch row, and its trace is numbered 1 to its counter without gaps |
| `RunTheorems.AttemptsCountStarts` | agent-service/app/main.py:2969-2979 | A run's attempt counter is the number of its successful starts, by workers and by device claims |
| `RunTheorems.RunsOnlyAge` | agent-service/app/main.py:2949-2967 | Over any stretch of a history runs keep their binding, never return to the queue, never leave a terminal state, and never reuse an id |
| `RunTheorems.QueueLeftOnce` | agent-service/app/main.py:2969-2979 | The edge out of `queued` is taken at most once per run |
| `RunTheorems.FirstStartIsUnique` | agent-service/app/worker.py:17-60 | Fresh worker starts, recoveries of never-started runs and device claims exclude one another, over any deliveries and redeliveries |
| `RunTheorems.OneFreshStart` | agent-service/app/main.py:2447-2464 | Of all claims of a run by devices and first deliveries to workers, at most one takes effect |
| `RunOutcomes.RunsStartWithinBudget` | agent-service/app/main.py:782-819 | Over every history: whatever command adds a run of a task, before it the task had used fewer tokens, recorded fewer tool calls and had fewer active runs than it declares |
| `RunOutcomes.CallsRecordedWithinBudget` | agent-service/app/main.py:1991-2000 | Over every history: whatever command records a tool call of a task's run, before it the task had used fewer tokens and recorded fewer calls than it declares, and had no more active runs |
| `RunOutcomes.UsageSendsBackIff` | agent-service/app/main.py:2981-2989 | A usage report replaces what the run had used in the task's sum, and sends the task back to its proposer exactly when a declared token, call or run limit is reached then and the task is in one of five states |
| `RunOutcomes.AgentTakesRunIff` | agent-service/app/main.py:2807-2884 | An agent takes a run exactly when it is active, below its own limit of at least one active run, has tokens left and, on a device, that device is bound and ready |
| `RunOutcomes.RunIsCreatedIff` | agent-service/app/main.py:2807-2884 | A run is created exactly for the conversation's owner, with an agent and a task that take one more, in the task's conversation, under an assignment to that agent still to be taken up |
| `RunOutcomes.WorkerStartsIff` | agent-service/app/main.py:2969-2979 | A worker's start succeeds exactly on a queued run, on redelivery also on a running one, after a confirmation only on one that waits |
| `RunOutcomes.ReportIsAcceptedIff` | agent-service/app/main.py:2949-2967 | A run completes only while it runs, waits only from running, fails or is cancelled until it has ended; repeated reports are accepted, refused ones change nothing |
| `RunOutcomes.StartIsProjected` | agent-service/app/main.py:1614-1682 | The start of a run puts its task in progress exactly from five states, and marks its assignment accepted exactly if nobody had taken it up |
| `RunOutcomes.EndingIsProjected` | agent-service/app/main.py:1614-1682 | A failed or cancelled run sends a task in one of five states back to its proposer and expires or cancels its open assignment; every other ending is projected to nothing |
| `RunOutcomes.DeletionOutcome` | agent-service/app/main.py:3144-3176 | A conversation is erased exactly for its owner, when its runs have ended and no task is worked on in it; its runs go with their dispatches, tool calls and traces, and the rows of all others stay |
| `LeaseTheorems.OneClaimEver` | agent-service/app/main.py:2447-2464 | A run is successfully claimed at most once over any history; every further claim leaves the whole store as it is |
| `LeaseTheorems.OneFinishEver` | agent-service/app/main.py:2487-2509 | After a successful finish no device request about the run is accepted or changes anything, so it is finished at most once |
| `LeaseTheorems.LapsedLeaseIsDead` | agent-service/app/main.py:2466-2475 | A claimed lease that has lapsed is never accepted again, and nothing presented for the run changes the store |
| `LeaseTheorems.ResendAddsNothing` | agent-service/app/main.py:2477-2485 | An acknowledged event, or any with a number not above it, leaves the whole store unchanged when sent again |
| `LeaseTheorems.LeaseIsLatestOffer` | agent-service/app/main.py:2418-2445 | The lease on record for a run is the one of its latest offer, over any history |
| `LeaseTheorems.OnlyLatestOfferIsAccepted` | agent-service/app/main.py:2418-2509 | Any accepted request carries the lease of the run's latest offer |
| `RunOutcomes.OfferOutcome` | agent-service/app/main.py:2418-2445 | An offer lends out the first waiting run of the device for 90 seconds under a lease never used before; nothing is offered exactly when none waits |
| `RunOutcomes.ClaimOutcome` | agent-service/app/main.py:2447-2464 | A claim is granted exactly to the device that holds the unexpired offer of a run still queued, which then runs for one more attempt, its task in progress and its assignment accepted |
| `RunOutcomes.HolderOutcome` | agent-service/app/main.py:2466-2485 | Exactly the device that holds the unexpired claim extends it by 90 seconds, learns of a cancellation, and has events with new numbers recorded |
| `RunOutcomes.FinishIsAcceptedIff` | agent-service/app/main.py:2487-2509 | A finish is accepted exactly under the claimed, unexpired lease and for an ending that the run can take; a refused one changes nothing |
| `RunOutcomes.FinishOutcome` | agent-service/app/main.py:2487-2533 | An accepted finish ends the run and settles its dispatch; a completed run with some text delivers it exactly when its own assignment is open and its task in progress or already delivered, leaving result, task and assignment as named; otherwise a failure or cancellation sends an unfinished task back and ends the assignment, and nothing else changes |
| `LeaseProtocol.AlwaysAgree` | local-agent/src/daemon.js:95-104 | Over any run of server, broken sockets, lost, reordered and repeated messages and daemon restarts, daemon and server agree on leases in flight, pending and held |
| `LeaseProtocol.DaemonSendsTheRecordedLease` | local-agent/src/daemon.js:95-104 | Every renewal, event and finish the daemon sends carries exactly the lease the server recorded, on a claimed or finished dispatch of its device |
| `LeaseProtocol.BegunOnce` | local-agent/src/daemon.js:96-101 | The daemon begins to execute a run at most once, even across restarts |
| `ExchangeOutcomes.ExchangeBegins` | local-agent/src/daemon.js:95-101 | An undisturbed exchange over a queued run ends with the server's unexpired claim and the daemon executing the run under that very lease, or reporting a failure under it when the workspace is missing; over a run that left the queue it begins nothing |
| `ExchangeOutcomes.ExchangeFinishes` | local-agent/src/daemon.js:102-103 | A run the daemon executes while it holds it ends on the server as the daemon says, with its dispatch settled and its lease no longer tracked |
| `LocalAgent.LocalAgentTransport.RenewLeases` | local-agent/src/transport.js:28-30 | The loop sends one renewal per tracked lease and nothing else |
| `LocalAgent.LocalAgentDaemon.OfferRemoteRun` | local-agent/src/daemon.js:95 | An offer is remembered and claimed, as in the protocol |
| `LocalAgent.LocalAgentDaemon.ClaimRemoteRun` | local-agent/src/daemon.js:96-101 | A granted claim of a remembered offer begins the run under that offer's lease; any other reply begins nothing |
| `LocalAgent.LocalAgentDaemon.FinishRun` | local-agent/src/daemon.js:102-103 | A finish is sent under the run's lease, which is then no longer tracked |
| `LocalAgent.LocalAgentDaemon.EmitEvent` | local-agent/src/daemon.js:102 | An event is sent under the run's lease |
| `LocalAgent.PerformAll` | local-agent/src/daemon.js:95-105 | A daemon that goes through a device's actions ends as the protocol says, and all it has sent but claims carries the recorded leases |
| `AgentStores.AgentStore.TaskBudgetError` | agent-service/app/main.py:782-819 | An unknown task is an error; otherwise there is no error exactly when fewer tokens are used, fewer calls recorded and, with the next run, no more runs active than declared; the limit it names was reached; 0 or absent means unlimited |
| `AgentStores.AgentStore.CreateRun` | agent-service/app/main.py:2807-2884 | Leaves exactly the tables, and the answer, of the specified command |
| `AgentStores.AgentStore.RecordToolInvocation` | agent-service/app/main.py:1991-2000 | Recorded exactly while the budget allows, equal to its specification |
| `AgentStores.AgentStore.DeleteConversation` | agent-service/app/main.py:3144-3176 | Erases a conversation without active runs or tasks and all its runs' rows, equal to its specification |
| `AgentStores.AgentStore.CreateTaskAssignment` | agent-service/app/main.py:971-998 | Next attempt number by a loop over the task's attempts, equal to its specification |
| `AgentStores.AgentStore.CreateTask` | agent-service/app/main.py:1285-1349 | Statement by statement, equal to its specification |
| `AgentStores.AgentStore.AssignCloudTask` | agent-service/app/main.py:1351-1395 | Statement by statement, equal to its specification, error paths included |
| `AgentStores.AgentStore.ResumeTask` | agent-service/app/main.py:1397-1449 | Statement by statement, equal to its specification, error paths included |
| `AgentStores.AgentStore.SubmitTaskResult` | agent-service/app/main.py:1040-1090 | Statement by statement, equal to its specification, error paths included |
| `AgentStores.AgentStore.WalkToRoot` | agent-service/app/main.py:1140-1150 | The ancestor loop computes the recursive walk |
| `AgentStores.AgentStore.SpareTokens` | agent-service/app/main.py:1167-1179 | The sums decide exactly whether the parent can fund the child |
| `AgentStores.AgentStore.DelegateTask` | agent-service/app/main.py:1119-1236 | Guards in the source's order, walk by a loop, insert and first attempt, equal to its specification |
| `AgentStores.AgentStore.CollectChildResult` | agent-service/app/main.py:1238-1262 | Answers the latest result of a direct child the caller proposed |
| `AgentStores.AgentStore.ExecuteTaskTool` | agent-service/app/main.py:1691-1808 | Fence, replay and dispatch of the task tools, equal to its specification |
| `AgentStores.AgentStore.OfferLocalRun` | agent-service/app/main.py:2418-2445 | Marks the first waiting run as offered under a fresh 90 second lease, and answers it unless the run was frozen in another mode |
| `AgentStores.AgentStore.ClaimLocalRun` | agent-service/app/main.py:2447-2464 | Claims and starts, or rolls back, equal to its specification |
| `AgentStores.AgentStore.FinishLocalRun` | agent-service/app/main.py:2487-2509 | Ends the run, delivers or projects, and settles the dispatch, equal to the specification that `FinishOutcome` pins down |
| `AgentStores.AgentStore.SubmitLocalTaskResult` | agent-service/app/main.py:2511-2533 | Delivers a local run's text if the task still accepts it, equal to its specification |
| `AgentStores.PerformAll` | agent-service/app/main.py:293-3220 | A store that performs a list of commands ends in the state of that history, so every theorem about histories is one about the class |
| `ToolLoop.ElseBranchIffNegativeLimit` | agent-service/app/main.py:4748-4857 | The loop's else branch is reached exactly when the limit is negative, which accepted policies (0 to 20) exclude |
| `ToolBounds.TurnsAlwaysSuffice` | agent-service/app/main.py:4748-4857 | With a limit from 0, as the accepted policies have, no history lets the loop run out of turns |
| `ToolBounds.ToolCallsWithinRecoveredLimits` | agent-service/app/main.py:4712-4857 | Over every history, crashes, recoveries, suspensions and duplicates included, a run carries out at most its limit of tool calls, and that many again for each recovery of a started run |
| `ToolBounds.ToolCallsWithinLimit` | agent-service/app/main.py:4712-4857 | So over any suspend and resume sequence without crash recovery a run carries out at most `max_tool_calls` tool calls |
| `ToolBounds.RecoveredLimitsAreReached` | agent-service/app/main.py:4712-4719 | For every limit and every number of recoveries some history reaches that bound exactly |
| `ToolBounds.CarriedOncePlusDeaths` | agent-service/app/main.py:4720-4746 | Over every history a confirmation is carried out at most once, plus once for every worker that died between carrying it out and marking it |
| `ToolBounds.DeathsRepeatAnApprovedCall` | agent-service/app/main.py:4720-4746 | For every number of such deaths some history carries one approved call out once more than that |
| `ToolLoop.GatedCallsAreApproved` | agent-service/app/main.py:2002-2071 | In every history, recoveries included, a gated tool is carried out only for an approved confirmation with exactly the tool and arguments that were asked for |
| `ToolLoop.ConfirmationsAreUsedOnce` | agent-service/app/main.py:4720-4746 | Without recovery every execution of a gated tool uses a confirmation of its own |
| `ToolLoop.ApprovalRoundTrip` | agent-service/app/main.py:4796-4806 | Asking suspends without executing; approval with the same arguments and resumption carries out exactly that call; rejection cancels; other arguments decide nothing |
| `ToolLoop.ApprovalCommutesWithLoop` | agent-service/app/main.py:4748-4857 | An approval given while the loop runs might as well have been given before it or after it |
| `ToolOutcomes.CompletedIffAnswered` | agent-service/app/main.py:4658-4888 | Over every history of deliveries, decisions and cancellations a run is completed exactly when some delivery of it was answered by the model, within the rounds its limit allows, while it was not cancelled |
| `ToolOutcomes.LoopCompletesIff` | agent-service/app/main.py:4748-4888 | The loop completes a run exactly when a reply without tool calls comes in a round that is reached while the run is not cancelled |
| `ToolOutcomes.DeliveryWithoutLoop` | agent-service/app/main.py:4658-4746 | Short of the loop a delivery changes nothing when the run may not start, fails it when no confirmation is approved or the approved tool raises, or leaves it running when the worker dies |
| `ToolOutcomes.FreshDeliveryEnds` | agent-service/app/main.py:4748-4888 | After any number of rounds of tool calls within the limit the next round decides: an answer completes the run, an unreachable model or a call over the limit fails it, a dead worker leaves it running, a noticed cancellation ends it cancelled |
| `ToolOutcomes.FreshDeliveryEndsInRound` | agent-service/app/main.py:4776-4853 | Within such a round a gated call leaves the run waiting with exactly its confirmation pending, and a tool that stops the run leaves it cancelled |
| `ToolOutcomes.CallOutcome` | agent-service/app/main.py:4776-4853 | What one call does to count, run, executions and confirmations, and exactly when the model is asked again, told from the call and the run's state |
| `ToolOutcomes.UserOutcome` | agent-service/app/main.py:4396-4412 | A decision counts exactly for a pending confirmation and its arguments; a rejection, like a cancellation, stops a run unless it completed or failed |
| `Orchestration.Orchestrator.OrchestrateRun` | agent-service/app/main.py:4658-4888 | The whole method, from the compare-and-set to its return, equals the delivery whose endings `CompletedIffAnswered`, `DeliveryWithoutLoop` and `FreshDeliveryEnds` tell |
| `Orchestration.Orchestrator.LoopTurns` | agent-service/app/main.py:4748-4857 | The loop of rounds with its else branch equals the specification, which completes a run exactly as `LoopCompletesIff` says |
| `Orchestration.Orchestrator.HandleCalls` | agent-service/app/main.py:4776-4853 | The inner loop over a round's tool calls equals the specification |
| `Orchestration.Orchestrator.CreateConfirmation` | agent-service/app/main.py:2002-2028 | Creates a confirmation exactly when the call id was not used in this run before |
| `Orchestration.Orchestrator.DecideConfirmation` | agent-service/app/main.py:2050-2066 | Decides exactly a pending confirmation whose arguments match |
| `EventReplay.ShownEventsRise` | chat-client/src/lib/agent-ws.js:38-67 | Over any reconnects and whatever the hub loses, repeats or reorders, the events shown to one subscription rise strictly |
| `EventReplay.OnlySkipsLeaveGaps` | agent-service/app/main.py:4904-4930 | What was sent stays without gaps by exactly those steps that do not hand over a queued event more than one ahead |
| `EventReplay.GaplessWithoutSkips` | agent-service/app/main.py:4904-4930 | Without such steps the browser is shown every event after its first cursor |
| `EventReplay.FaithfulHubIsGapless` | agent-service/app/main.py:3222-3245 | A hub that queues in order every event newer than the trace that was read, at once or at any later time and with any repetitions, never skips, so the browser is shown every event after its first cursor over any reconnects |
| `EventReplay.UnpublishedEventIsLost` | agent-service/app/main.py:4489-4495 | An event whose publication failed, followed by one that is queued and sent, is not shown |
| `EventReplay.SkippedIsNeverShown` | chat-client/src/lib/agent-ws.js:38-67 | An event that was passed over is never shown later |
| `EventReplay.PollCatchesUp` | agent-service/app/main.py:4904-4930 | A subscription that skipped nothing, once it polls with an empty queue, has every recorded event after its first cursor shown or on the wire |
| `EventReplay.ReconnectCatchesUp` | chat-client/src/lib/agent-ws.js:38-67 | So it has after every reconnect, wherever the socket broke and whatever was lost on the wire |
| `EventReplay.WireIsShown` | chat-client/src/lib/agent-ws.js:52-58 | What is on the wire is shown in order as it is received |
| `EventSockets.Subscription.Forward` | agent-service/app/main.py:4918-4930 | The forwarding loop sends exactly the candidates newer than everything sent before |
| `EventSockets.AgentWebSocket.OnMessage` | chat-client/src/lib/agent-ws.js:52-58 | The cursor is always the highest number shown or connected with |
| `EventSockets.AgentWebSocket.OnClose` | chat-client/src/lib/agent-ws.js:59-66 | A closed socket is retried while running, with a delay that doubles up to 30 seconds |
| `MessageMerge.MergedListIsClean` | chat-client/src/lib/message-list.js:31-60 | For all lists, duplicates included, and every limit from 1: no two entries are the same message, entries are sorted by creation, at most `limit` remain |
| `MessageMerge.MergingAgainChangesNothing` | chat-client/src/lib/message-list.js:31-60 | Merging the result again, on either side, returns it unchanged |
| `MessageMerge.SortIsStable` | chat-client/src/lib/message-list.js:57-58 | Entries of equal creation time keep their order |
| `MessageMerge.ZeroKeepsEverything` | chat-client/src/lib/message-list.js:59 | A limit of 0 keeps every entry |
| `MessageMerge.SelfMergeIsCleanIff` | chat-client/src/lib/message-list.js:13-55 | Merging a clean list with itself collapses back to it exactly when every entry has an identifier |
| `MessageMerge.UpsertedIsPresent` | chat-client/src/lib/message-list.js:62-64 | An upserted message is in the merged list with all its properties before the cut |
| `MessageMerge.ReplacedIdIsForgotten` | chat-client/src/lib/message-list.js:45-50 | An entry whose id was overwritten no longer collapses with copies under the old id |
| `MessageMerge.TemporaryIdForgets` | chat-client/src/lib/message-list.js:1-5 | A concrete list where a temporary id arrives after the real one and the real one is then a new entry |
| `MergeCut.MergeKeepsLatest` | chat-client/src/lib/message-list.js:57-59 | For every limit the merge keeps as many collapsed entries as the limit says; none left out ranks higher than one kept, and among equal ranks those left out stand before those kept |
| `MergeCut.OutrankingIsKept` | chat-client/src/lib/message-list.js:57-59 | An entry that ranks no lower than all others, and higher than those behind it, is the last of the list after every cut that keeps anything |
| `MergeCut.UpsertedIsKept` | chat-client/src/lib/message-list.js:62-64 | An upserted message that is new and not older than the others is the last of the result; one that updates an entry is, with all its properties, whenever that entry outranks the others |
| `MergeCut.UpdateIsCut` | chat-client/src/lib/message-list.js:40-59 | An update of an entry can be cut although nothing ranks higher: an entry of the same time behind it is kept instead |
| `MergeCut.EqualRankCanBeCut` | chat-client/src/lib/message-list.js:40-59 | A concrete list and update of it that the cut to one entry loses |
| `MergeCut.SameIff` | chat-client/src/lib/message-list.js:1-21 | Two messages are the same exactly when they share a non-empty id that is not temporary, or a non-empty client id |
| `MergeCut.NothingIsLost` | chat-client/src/lib/message-list.js:31-55 | Before the cut every message of either list is in an entry with every property it was given, whatever it is merged with |
| `MessageLists.MergeMessageLists` | chat-client/src/lib/message-list.js:31-60 | The loops that push, overwrite and splice compute the specified merge, as long as the limit says, with only entries left out that rank no later than those kept |
| `MessageLists.UpsertMessage` | chat-client/src/lib/message-list.js:62-64 | Computes the specified upsert, a clean list for every limit from 1, which ends with the message if it is new and not older than the others |
| `PackedKeys.ConversationKeyIsInjective` | chat-server/src/db.rs:1141-1145 | Below 2^32 a conversation number stands for exactly one unordered pair of users |
| `PackedKeys.MessageKeyKeepsOrder` | chat-server/src/db.rs:552 | Table keys are injective and ordered by conversation, then sequence number |
| `PackedKeys.ScanEndIsBlockEnd` | chat-server/src/db.rs:1034 | The upper scan bound is the end of the block of 2^32 conversations sharing the upper word |
| `Pagination.TablesHoldWhatWasSent` | chat-server/src/db.rs:534-570 | The tables hold every message under its conversation and number and nothing else; each conversation is numbered 1 to n |
| `Pagination.PageBeforeIsExact` | chat-server/src/db.rs:1013-1030 | For every limit a page before a message is exactly the last `limit` earlier messages, oldest first, whatever else is stored; 0 counts as 1, a negative limit as none |
| `Pagination.WalkBackVisitsAll` | chat-server/src/db.rs:1013-1030 | Walking back page by page shows every earlier message exactly once, in order |
| `Pagination.NewestPageIsExactIff` | chat-server/src/db.rs:1048-1063 | The default page is exact exactly when no later conversation of the same block has a message |
| `Pagination.PageAfterIsExactIff` | chat-server/src/db.rs:1031-1047 | The page after a message is exact exactly when enough own messages follow or no later conversation of the block has one |
| `Pagination.PrivateStrangers` | chat-server/src/db.rs:1141-1145 | For private chats the later conversations of a block are those of the smaller user with a partner of larger id |
| `Pagination.NewestGroupPageIsExactIff` | chat-server/src/db.rs:1118-1133 | The newest page of a group is exact exactly when no group with a larger id has a message |
| `Pagination.PrivatePageCanShowAnotherChat` | chat-server/src/db.rs:1048-1063 | A concrete store whose default page of an empty chat shows a message of another chat |
| `Pagination.MessageTable.SaveMessage` | chat-server/src/db.rs:522-570 | Numbers and stores a message; the new tables are the specified ones |
| `Pagination.MessageTable.GetMessagesPaginated` | chat-server/src/db.rs:994-1068 | The three scanning loops and the reversal compute the specified page |
| `ContextBudget.ContextIsWellChosen` | agent-service/app/harness.py:105-119 | The kept messages are an order-preserving subsequence ending with the newest or a suffix of it; kept plus dropped is all; the estimate is at most max(budget, prefix + 40); every dropped message would still overflow the final total |
| `ContextBudget.ContextFitsWindow` | agent-service/app/harness.py:81-82 | With a prefix that leaves room for the newest message the estimate stays within the input budget, and with the answer and the tools within the context window |
| `ContextBudget.EstimateCoversIff` | agent-service/app/harness.py:105-119 | The estimate covers what is sent exactly when the newest message fits or its kept tail has at most 3 bytes per token |
| `ContextBudget.EstimateCanFallShort` | agent-service/app/harness.py:111-115 | Ninety-seven two-byte characters in a full context are counted as 40 tokens and cost 72 |
| `ContextBudget.PrepareHistory` | agent-service/app/harness.py:105-120 | The loop computes the specified choice |
| `ContextBudget.ToolDeclarations` | agent-service/app/harness.py:137-161 | The loop computes the specified declarations |
| `ContextBudget.DeclarationsFit` | agent-service/app/harness.py:137-161 | Declarations fit the budget, contain no ungated write tool, and an exposed tool that is missing would overflow |
| `ReplyPipeline.AcceptancesAreAccounted` | qq-gateway/app/main.py:667-714 | Over every run with crashes and retries the provider's acceptances of a reply number at most 1 plus the crashes between acceptance and its record; a completed event's reply was accepted |
| `ReplyPipeline.OverIsFinal` | qq-gateway/app/main.py:189-209 | A completed or expired event is never claimed again and its row stays |
| `ReplyPipeline.CrashDuplicatesReply` | qq-gateway/app/main.py:703-706 | The bound is reached: a crash right after the acceptance makes the next attempt send again |
| `ReplyOutcomes.EndedIff` | qq-gateway/app/main.py:667-714 | Over every run of the gateway an event is completed exactly when the record of its delivered reply was written, and expired exactly when it was found too late before it began or before its reply |
| `ReplyOutcomes.OutboundStatusAfter` | qq-gateway/app/main.py:260-282 | Every change of a reply's status: sending once it is claimed anew or after a failure, then sent or failed, and nothing else |
| `ReplyOutcomes.PassCompletes` | qq-gateway/app/main.py:667-714 | An undisturbed pass over a new or failed event completes it with one more acceptance, and with none when its reply was already on record as sent |
| `ReplyOutcomes.FailedPassIsRepeatable` | qq-gateway/app/main.py:667-714 | A pass that fails at the agent service or the provider leaves an event that is taken up again at once, with a reply that may be sent again |
| `GatewayStores.GatewayStore.ClaimEvent` | qq-gateway/app/main.py:189-209 | Claims exactly a new, failed or stale event, counts the attempt, and touches no other event |
| `GatewayStores.GatewayStore.ClaimOutbound` | qq-gateway/app/main.py:260-272 | Answers exactly whether the reply is sent or freshly in flight; otherwise claims it, counts the attempt, and touches no other reply |
| `GatewayStores.GatewayStore.TouchEvent` | qq-gateway/app/main.py:225-228 | Refreshes an event exactly while it is processed; its status, attempts and all other events stay |
| `GatewayStores.GatewayStore.FinishEvent` | qq-gateway/app/main.py:230-243 | Completes, fails or expires one event; its attempts and all other events stay |
| `GatewayStores.GatewayStore.FinishOutbound` | qq-gateway/app/main.py:274-282 | Marks one reply sent or failed; its attempts and all other replies stay |
| `RateLimit.AdmissionsAreBounded` | chat-server/src/ratelimit.rs:18-75 | Under a monotone clock every half-open 60 second interval admits at most 200 requests per token and every window at most 100 |
| `RateLimit.RefusedIff` | chat-server/src/ratelimit.rs:48-78 | Over every trace under a monotone clock a request is refused exactly when its token's window began less than 60 seconds ago and has admitted exactly 100 requests since; one without a token never is |
| `RateLimit.RateLimiter.RestRateLimit` | chat-server/src/ratelimit.rs:48-78 | Updates the shared map and decides exactly as specified |
| `Journal.RestartStaysInvisibleIff` | local-agent/src/journal.js:7-22 | A write keeps a restart invisible exactly when it does not number a row below the run's highest |
| `Journal.AutomaticNumbering` | local-agent/src/journal.js:16-22 | With automatic numbering every run's rows are numbered 1, 2, 3 and so on, and a restart at any moment changes no later number |
| `Journal.ResumeReturnsTheRest` | local-agent/src/journal.js:24-29 | What follows an acknowledged number is exactly the unacknowledged rows |
| `Journal.SummaryIsLatest` | local-agent/src/journal.js:30-51 | A run is listed exactly when its creation is in the log; its last creation or ending decides its state and its last row the number |
| `Journal.JournalFile.constructor` | local-agent/src/journal.js:7-15 | Opening reads back every run's highest number |
| `Journal.JournalFile.Append` | local-agent/src/journal.js:16-22 | Numbers a row behind the run's last one, or as given, and writes it behind the log |
| `Journal.JournalFile.Events` | local-agent/src/journal.js:24-29 | Returns the run's rows behind a number, in order |
| `Journal.JournalFile.Runs` | local-agent/src/journal.js:30-51 | Folds the log into the runs it tells of and their states |

## Left out

- Plumbing: routing, HTTP and Redis clients, SQL text, migrations, encryption (the identity here) and
  hashing (a confirmation's hash is its arguments).
- The contexts, dispatch logs, notifications, handoffs, summaries and messages that task commands also
  write: they are appended and never read by a guard.
- Two processes on one database: each public method is one step, and a statement left pending by a
  refused assignment is taken as written, although a rollback of the same connection before the next
  commit would undo it.
- Executors other than cloud agents: the source refuses to assign them.
- Negative recorded token usage; usage is a natural number.
- The daily and monthly token budgets of an agent and the state of its device and workspace: parameters
  of `create_run`.
- Rows are offered by number, not by the text order of a uuid; which waiting run is offered first does
  not matter to any theorem.
- Text of a device's result is taken after trimming.
- Two connections of one device at a time, and messages from a second daemon with the same credentials.
- Liveness: a claimed run whose device died, or a reply that makes the daemon forget a newer offer, can
  wait for ever.
- ToolBounds.CarriedOncePlusDeaths: deliveries of one run do not overlap, as with one worker process that
  awaits each of them. With several, one that stalls for more than 30 seconds may be taken for dead while
  it lives, and its approved call carried out beside it; the bounds of `ToolBounds` do not cover that.
- ToolBounds.ToolCallsWithinRecoveredLimits: what a user decides during a delivery comes as a
  cancellation, which a rejection causes, or before or after the delivery, with which an approval
  commutes (`ToolLoop.ApprovalCommutesWithLoop`).
- The retries, heartbeats and acknowledgements of stream entries in `worker.py`: for the store their
  effect is a start with or without the recovery flag, at any time and any number of times.
- EventReplay: events without a number are not part of this model.
- MessageMerge: an identifier is its text, creation times are compared by any ranking of strings, and
  the runtime's sort is a stable insertion.
- Pagination.PageBeforeIsExact: for cursors and sequence numbers below 2^32, as every theorem there; a
  negative or larger cursor is not modelled.
- ReplyPipeline.AcceptancesAreAccounted: send outcomes are known and store writes succeed; one runtime.
- RateLimit.AdmissionsAreBounded: the two clock readings of one request are one instant.
- Journal.AutomaticNumbering: appends to one run do not overlap.
- Streaming chunks of a model's reply (`ModelTurn.merge`), the prompt and memory prefix of a context
  (a number here), proactive messages, friend lists and every other view: only easy members.
