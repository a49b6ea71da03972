# FlowPilot verification model

A Dafny model of FlowPilot's three stateful cores, with proofs of what they are for:

1. **Workflow graphs.** The contract validator, the worker's node ordering and run loop, and the canvas layout
   (`WorkflowGraph`, `WorkflowDefinition`, `NodeOrdering`, `NodeExecution`, `CanvasLevels`). What the validator
   accepts can always be ordered and run, and the run computes a meaning of the graph that mentions no order.
2. **Executions and the outbox.** Any number of workers, dispatchers and timeline consumers, one transaction or
   one read or write at a time, with stale readings, crashes and redelivery (`ExecutionProtocol`,
   `ExecutionInvariants`, `ExecutionTheorems`, `ExecutionWorker`, `OutboxDispatch`, `LeadEnrichmentConsumer`). An
   execution that has succeeded has run every node of its definition.
3. **Engagement.** Registrations, consent, suppression, meetings, cadence actions, messages, webhooks and retention,
   moved by API operations that work from what they have read before their transactions, the enrichment worker, and
   any number of action dispatchers that can crash between any two transactions (`CommunicationPolicy`,
   `Engagement`, `EngagementCrm`, `EngagementCadence`, `EngagementRows`, `EngagementTheorems`, `EngagementHistories`,
   `FollowUpHistories`, `EngagementServices`, `ScheduledActionDispatcher`, `EngagementLimits`, `SendLimit`,
   `Retention`).

The algorithms and services are methods with loops over the data the source mutates; the protocols are step
functions, and a run is a sequence of steps in any order by anybody. Theorems named below quantify over all inputs
and all runs. The methods that drive a protocol (`ExecutionWorker.Worker`, `EngagementServices.EngagementService`,
`ScheduledActionDispatcher.ActionDispatcher`) let arbitrary steps of others happen wherever the code waits, and
their contracts say which steps they add to the run, and, in terms of the rows that the transaction finds, what those
steps do (`EngagementRows`).

A step of the engagement machine is *harmless* when the status it writes over is as it was read, is what it writes
already, or is an open one being declined. That is a condition on what an operation finds when its transaction
begins; dispatchers, links and registrations are always harmless. Histories that show a failure use only readings
that were true at an earlier point of the same run (`EngagementHistories.Reachable`).

`dafny verify dfyconfig.toml` checks the whole project.

## What turned out not to hold, and exactly when it does

- `getNodeLevels` runs for ever on a draft in which a cycle can be reached, over existing nodes, from a node without
  incoming edges, and on no other draft: `CanvasLevels.EndsExactlyWithoutCycle`, with such a draft in
  `CanvasLevels.HangingDraft`.
- An outbox row that is PUBLISHED can become PENDING or FAILED again. It is published for good exactly when no
  dispatch is at work on an earlier reading of it: `ExecutionTheorems.PublishedForGoodExactly`, with a history from
  the start in `ExecutionTheorems.PublishedCanBeTakenBack`.
- A blocked lead can still receive one more mail, and so can a registration after it is declined or has a booked
  meeting: a send that had the policy's go-ahead before. They are safe from all future runs exactly when no such send
  is under way: `EngagementTheorems.BlockedIsSafeExactly`, `EngagementTheorems.BarredIsSafeExactly`,
  `EngagementTheorems.DoomedIsSafeExactly`, with histories in `EngagementHistories.BlockedCanBeUnderWay` and
  `EngagementHistories.DeclinedCanBeUnderWay`.
- DECLINED can be left, because an operator's update and an inbound reply look the transition up in a status read
  before their transaction (`EngagementHistories.DeclinedCanBeLeft`). Status histories stay in the transition table
  exactly when every step is harmless: `EngagementCrm.PathsExactlyWhenHarmless`.
- For the same reason an event can be oversold (`EngagementHistories.OldReadingsCanOversell`). It never is exactly when
  no status change takes a new seat in an event that is full by then: `EngagementCrm.NeverOversoldExactly`, and step by
  step `EngagementCrm.KeepsSeatsExactly`. In all runs the excess is at most the status changes into a seat:
  `EngagementCrm.SeatsAreBounded`.
- A registration can have the follow-ups of an attendee and of a no-show, be written more than three of them
  (`FollowUpHistories.OldReadingsCanWriteFour`) and run into CADENCE_LIMIT_REACHED
  (`FollowUpHistories.OldReadingsCanReachTheLimit`). It has one kind exactly when no operator's change finds the other
  kind scheduled: `EngagementCadence.OneKindExactly`. With one kind there are at most three and the limit is never
  reached; in all runs there are at most six, and at most five event messages, which never reach theirs:
  `EngagementTheorems.CadenceIsBounded`, `EngagementTheorems.DecisionsAreNotLimited`,
  `EngagementTheorems.SendsAreNotLimited`.
- Meetings can overlap, when two bookings search before either is made (`EngagementHistories.OldReadingsCanDoubleBook`).
  They stay apart exactly when every booking that is made finds its slot free then:
  `EngagementCrm.MeetingsApartExactly`.
- What survives readings of any age: one registration per address, suppression, one mail per step, and the agreement of
  messages and send actions.
- The message limit of the policy can be exceeded by dispatchers that check before any of them sends. In every run of
  the engagement machine, sent and delivered messages stay below the limit plus the number of dispatchers:
  `EngagementLimits.LimitHoldsInRuns`. Taken by itself the limit is kept exactly when the lead is blocked from the
  start or at most one dispatcher is at work; n dispatchers can exceed it by n - 1 and no more:
  `SendLimit.LimitHoldsExactly`, `SendLimit.LimitIsExceededByAll`, `SendLimit.LimitHolds`.
- One mail per step of a cadence needs leases that outlast the work of a live dispatcher. The batch fixes `now` at its
  start, so a lease can run out under a live dispatcher, and then a step can get two messages and the branch for a
  message that has been sent already is taken: `EngagementHistories.LostLeaseDraftsTwice`,
  `EngagementHistories.LostLeaseFindsItSent`. While no action is claimed from a dispatcher at work, that branch is
  never taken: `EngagementCadence.ClaimedIsNotOut`.
- The `??` fallbacks of `getNodeInput` are never used for nodes with incoming edges.
- A retention run stops at an error exactly when somebody else holds the anonymous address of a selected lead:
  `Retention.RetentionJob.RunRetention`.

## Model

| member | source | states |
|---|---|---|
| `WorkflowValidator.MarkReachable` | packages/contracts/src/workflow-definition.ts:159-192 | the queue walk marks exactly the ids to which a walk leads from a trigger, on any graph |
| `WorkflowValidator.CycleSearch.Visit` | packages/contracts/src/workflow-definition.ts:194-234 | the recursive search fails only with a cycle behind it, and a success leaves every finished id free of cycles |
| `WorkflowValidator.IsAcyclicFrom` | packages/contracts/src/workflow-definition.ts:194-234 | the depth-first search succeeds if and only if no cycle can be reached from any node |
| `WorkflowValidator.CheckEdges` | packages/contracts/src/workflow-definition.ts:73-128 | the edge issues reported are exactly those whose conditions hold, edge by edge |
| `WorkflowValidator.SuperRefine` | packages/contracts/src/workflow-definition.ts:45-142 | on every definition, the issues reported are exactly those that apply |
| `WorkflowValidator.PairKeySeparates` | packages/contracts/src/workflow-nodes/shared.ts:21-28 | with ids the schema admits, the key of a source and target pair determines the pair |
| `WorkflowValidator.NoIssueIsAccepted` | packages/contracts/src/workflow-definition.ts:45-142 | no issue applies if and only if ids and pairs are unique, endpoints exist, triggers are unfed, all is reachable from a trigger and there is no cycle |
| `WorkflowValidator.Parse` | packages/contracts/src/workflow-definition.ts:45-142 | parsing succeeds if and only if the definition has that graph property |
| `NodeOrdering.Release` | apps/execution-worker/src/index.ts:794-801 | counts go down once per listed edge, and the targets that arrive at zero are queued |
| `NodeOrdering.ReachedIsVisited` | apps/execution-worker/src/index.ts:754-812 | when the queue is empty, every node of an acyclic graph that triggers lead to has been visited (descent over ancestor sets) |
| `NodeOrdering.OrderWorkflowNodes` | apps/execution-worker/src/index.ts:754-812 | ordering succeeds if and only if all nodes are reachable from triggers and there is no cycle; the result is a permutation with sources before targets and triggers first; accepted definitions never get `workflow_definition_unordered` |
| `NodeExecution.MeaningsSolve` | apps/execution-worker/src/index.ts:609-707 | the recursive dataflow meaning satisfies the equation of every node |
| `NodeExecution.SolutionIsUnique` | apps/execution-worker/src/index.ts:609-707 | these equations have one solution on an acyclic graph, so the meaning depends on no order |
| `NodeExecution.InputIsMerge` | apps/execution-worker/src/index.ts:814-833 | reading the recorded outputs gives a node the payload if it has no source, the value of its one source as it is, and the record of the values of several; no fallback is used when there are sources |
| `NodeExecution.RunInOrder` | apps/execution-worker/src/index.ts:619-707 | the loop computes any solution of the equations, runs every node on what its sources have put out, and stops at a node whose meaning is the reported error |
| `NodeExecution.ExecuteWorkflowNodes` | apps/execution-worker/src/index.ts:609-707 | a run of an accepted definition completes if and only if every node has a value; every output is the node's meaning and what its executor makes of the payload, of the output of its one source as it is, or of the record of the outputs of several; a failure is what the executor makes of these |
| `NodeExecution.SourcesAreHandedOn` | apps/execution-worker/src/index.ts:814-833 | a node whose sources all have values means what its executor makes of the one value, unchanged, or of the record of several by source id, and of the payload without sources |
| `NodeExecution.WithoutAValueStarved` | apps/execution-worker/src/index.ts:623-647 | a node with a source that has no value is not run |
| `NodeExecution.TriggersMeanThePayload` | apps/execution-worker/src/nodes/manual-trigger.ts:7-10 | however many triggers there are, each yields the original payload |
| `NodeExecution.LastNodeIsSink` | apps/execution-worker/src/index.ts:709-715 | the node whose output becomes the final output feeds nobody |
| `NodeExecution.RunDefinition` | apps/execution-worker/src/index.ts:616-715 | from stored definition to result: refused if and only if not accepted, never unordered; a completed run has counted every node and its final output is the value of a node that feeds nobody; a failed one reports the error that some node means |
| `CanvasLevels.PopLowersFan` | apps/web/src/features/workflow-canvas/workflow-canvas.tsx:478-495 | one turn lowers the measure of the queue by exactly one |
| `CanvasLevels.FanCountsWalks` | apps/web/src/features/workflow-canvas/workflow-canvas.tsx:478-495 | the measure of a node is the number of walks that start at it, edge by edge |
| `CanvasLevels.EndsExactlyWithoutCycle` | apps/web/src/features/workflow-canvas/workflow-canvas.tsx:472-495 | on any draft, the loop ends if and only if no cycle can be reached from a node without incoming edges |
| `CanvasLevels.HangingDraft` | apps/web/src/features/workflow-canvas/workflow-canvas.tsx:472-495 | a draft of two nodes and two edges on which the loop never ends |
| `CanvasLevels.GetNodeLevels` | apps/web/src/features/workflow-canvas/workflow-canvas.tsx:458-498 | where the loop ends, an id has a level if and only if a walk from a root leads to it, and the level is the length of a longest such walk |
| `CanvasLevels.LevelsIncrease` | apps/web/src/features/workflow-canvas/workflow-canvas.tsx:485-488 | levels strictly increase along edges |
| `CanvasLevels.AcyclicIsLevelled` | apps/web/src/features/workflow-canvas/workflow-canvas.tsx:458-498 | on acyclic definitions with existing endpoints the loop ends and every node gets a level |
| `ExecutionProtocol.KeySeparates` | apps/execution-worker/src/index.ts:1266-1332 | with execution ids free of colons, an idempotency key determines kind, execution and node, whatever the node id |
| `ExecutionInvariants.StepKeepsInv` | apps/execution-worker/src/index.ts:274-464 | every step of every worker, dispatch and consumer keeps the joint invariant of statuses, rows, node rows, commands, dispatches and timeline |
| `ExecutionTheorems.RowsTellTheStatus` | apps/execution-worker/src/index.ts:302-424 | in every reachable state a completed row exists if and only if SUCCEEDED, a failed row if and only if FAILED, and a running or succeeded execution has its started row |
| `ExecutionTheorems.SucceededRanItsPlan` | apps/execution-worker/src/index.ts:623-707 | in every reachable state a succeeded execution has the started and the completed row of every node of its plan, whichever workers wrote them |
| `ExecutionTheorems.MakePlan` | apps/execution-worker/src/index.ts:739-812 | parsing and ordering a stored definition gives its plan: an execution order of its nodes if and only if the definition is accepted |
| `ExecutionTheorems.SucceededRanItsDefinition` | apps/execution-worker/src/index.ts:618-707 | so an execution with the plan of a definition succeeds only if the definition is accepted, and then every node of the definition has completed, in every reachable state |
| `ExecutionTheorems.TerminalForever` | apps/execution-worker/src/index.ts:1358-1389 | no continuation of any run changes a terminal status |
| `ExecutionTheorems.TimelineHasNoDuplicates` | apps/workflow-service/src/index.ts:104-124 | however often events are published and redelivered, the timeline has one row per event and never both a completion and a failure of one execution |
| `ExecutionTheorems.TimelineExactly` | apps/workflow-service/src/index.ts:104-124 | the timeline holds exactly the events that some step of the run has consumed from the bus |
| `ExecutionTheorems.ConsumedForGood` | apps/workflow-service/src/index.ts:104-124 | after any run, consuming an event that is on the bus puts it on the timeline under its id, and no continuation removes or changes that row or adds another one for the event |
| `ExecutionTheorems.RowsReachTheTimeline` | apps/execution-worker/src/index.ts:1450-1500 | from any reachable state, dispatching an unpublished row and consuming what it has put on the bus leaves its event on the timeline under the row's id |
| `ExecutionTheorems.FailedPublicationIsCharged` | apps/execution-worker/src/index.ts:1577-1592 | a failed dispatch of a pending row that nobody disturbs costs exactly one attempt, and the row has failed for good exactly at the fifth |
| `ExecutionTheorems.CompletionIsRecorded` | apps/execution-worker/src/index.ts:274-464 | a history, for every execution id, from the initial state, in which the execution is created, runs its node and succeeds, to its completed event on the timeline |
| `ExecutionTheorems.CommandsAreAccountedFor` | apps/execution-worker/src/index.ts:222-272 | a valid command is queued, held by exactly the worker that works on it, gone with its execution terminal, or replaced by a copy with the next attempt header |
| `ExecutionTheorems.LinesAreNeverLost` | apps/execution-worker/src/index.ts:222-272 | the chain of a command and the copies that replace it one after the other ends in one that waits or is worked on, unless the execution is terminal; crashes between publishing a retry and acknowledging included |
| `ExecutionTheorems.RetriesAreBounded` | apps/execution-worker/src/index.ts:1611-1624 | along a line of retries at most three republications, with the attempt header counting them and an existing queue each time: 10 seconds before the first, 60 before the second, 300 before the third |
| `ExecutionTheorems.UnknownExecutionIsRequeued` | apps/execution-worker/src/index.ts:1391-1412 | a command for a missing execution is never acknowledged as processed nor dead-lettered |
| `ExecutionTheorems.OutboxRowsAreSound` | apps/execution-worker/src/index.ts:1577-1592 | under any interleaving PENDING means attempts are left, PUBLISHED means the event went out, and an event only ever goes out under the id of its row |
| `ExecutionTheorems.PublishedForGoodExactly` | apps/execution-worker/src/index.ts:1582-1592 | a published row stays published in all continuations if and only if no dispatch is at work on an earlier reading of it |
| `ExecutionTheorems.PublishedCanBeTakenBack` | apps/execution-worker/src/index.ts:1450-1500 | a reachable state, for every execution id, in which the failure of an overlapping dispatch sets a published row back to pending |
| `ExecutionWorker.OthersKeep` | apps/execution-worker/src/index.ts:222-272 | whatever the others do, a worker's phase and the command it holds stay as they are |
| `ExecutionWorker.Worker.ExecuteNode` | apps/execution-worker/src/index.ts:623-706 | one node: it is done if and only if its executor succeeds and both its events are dispatched, otherwise the worker is in the error the source throws; its started row is there, and its completed row or, when it fails after that, its failed row |
| `ExecutionWorker.Worker.ExecuteWorkflowNodes` | apps/execution-worker/src/index.ts:609-707 | all nodes of the plan are done if nothing throws, and otherwise the worker is in just the error of the first thing that does: the setup, an invalid plan (never retryable), or a node |
| `ExecutionWorker.Worker.ProcessWorkflowExecution` | apps/execution-worker/src/index.ts:274-464 | under any interference the command is acknowledged or the worker is in error with the command unchanged, and then the answers and the plan call for an error of just that kind |
| `ExecutionWorker.Worker.HandleDelivery` | apps/execution-worker/src/index.ts:222-272 | under any interference a delivery takes place if and only if the command is queued by then, and is let go of as the answers call for: processed with the execution terminal when nothing goes wrong, replaced by the copy with the next header only after a retryable failure (never for an invalid plan or a permanent one), dead-lettered with the execution terminal, or put back unchanged, each only for its reason; all of it continues the run. With nobody else about and a live execution, the answers determine the ending and the status exactly |
| `ExecutionWorker.Worker.Republish` | apps/execution-worker/src/index.ts:251-255 | the copy is published before the delivery is acknowledged, and has the next attempt header |
| `ExecutionWorker.Worker.Bury` | apps/execution-worker/src/index.ts:257-270 | a failure is recorded and dead-lettered; the delivery is put back only when that does not work or the execution is missing |
| `OutboxDispatch.OutboxTable.FetchPending` | apps/execution-worker/src/index.ts:1513-1524 | the batch is exactly the first rows, in order of creation, that are pending with fewer than five attempts; one is left only when the batch is full with older ones |
| `OutboxDispatch.OutboxTable.DispatchPendingOutboxMessages` | apps/execution-worker/src/index.ts:1508-1549 | every fetched row is published or charged one attempt, with which it has failed for good at the fifth, and no other row changes; published and failed are the numbers of fetched rows that the channel takes and refuses, and make up the fetched ones |
| `OutboxDispatch.CycleLowersBacklog` | apps/execution-worker/src/index.ts:1508-1549 | every dispatched row takes at least one off the attempts left over all pending rows |
| `OutboxDispatch.NothingFetchedMeansSettled` | apps/execution-worker/src/index.ts:1513-1524 | the filter strands no row: a cycle that fetches nothing leaves nothing pending |
| `OutboxDispatch.BacklogDrains` | apps/execution-worker/src/index.ts:1508-1592 | whatever the channel does, after as many cycles as there are attempts left every row is published or failed |
| `LeadEnrichmentConsumer.RetriesAreBounded` | apps/execution-worker/src/enrichment/lead-enrichment-consumer.ts:149-158 | republications carry consecutive headers up to three, counted on from the header of the delivery, number or text, and wait at most 370 seconds in all |
| `LeadEnrichmentConsumer.JourneysEndAccountedFor` | apps/execution-worker/src/enrichment/lead-enrichment-consumer.ts:75-118 | a command leaves only processed, or dead-lettered because it cannot be parsed or for a failure that is not retryable or has used up its retries; while it is queued nothing has succeeded, and whenever the channel could publish it was for a retryable failure and the command has been republished |
| `CommunicationPolicy.HourAfter` | apps/execution-worker/src/engagement/communication-policy.ts:28-36 | adding whole hours moves the local hour on by as many, modulo 24 |
| `CommunicationPolicy.RetryReachesWindow` | apps/execution-worker/src/engagement/communication-policy.ts:16-36 | the retry time is later, at most 14 hours away, in local hour 8, the fewest whole hours that reach the window, and allowed when asked again |
| `CommunicationPolicy.FirstReasonIsGiven` | apps/execution-worker/src/engagement/communication-policy.ts:16-26 | the reason given is the first that applies in the order of the source; the hour alone means a retry, and a message is allowed if and only if no reason applies |
| `EngagementCrm.RegisterKeepsCrm` | apps/api/src/modules/events/events.service.ts:172-300 | registering keeps addresses and registrations unique, with one enrichment request each |
| `EngagementCrm.RunKeepsCrm` | apps/api/src/modules/events/events.service.ts:172-300 | the invariant of leads, registrations and requests holds in every reachable state, however old the readings of operations are |
| `EngagementCrm.StepIsOnward` | apps/api/src/modules/engagement/engagement.service.ts:77-277 | no step, however old its readings, changes a capacity, unbooks a meeting, unblocks a lead, or gives consent without a new registration |
| `EngagementCrm.StepFollowsExactly` | apps/api/src/modules/engagement/engagement.service.ts:77-141 | a step that changes anything stays in the transition table if and only if the status it writes over is as it was read, as it writes, or an open one being declined |
| `EngagementCrm.PathsExactlyWhenHarmless` | apps/api/src/modules/engagement/engagement.service.ts:77-141 | for whole runs without idle steps: all status histories are paths in the table if and only if every step is harmless in that sense |
| `EngagementCrm.OnlyOperatorsPromote` | apps/api/src/modules/engagement/engagement.service.ts:77-101 | only an operator's change moves anybody off the waiting list, and the counter of such moves is exact, event by event |
| `EngagementCrm.RegisterTakesFreeSeats` | apps/api/src/modules/events/events.service.ts:213-222 | registering takes a seat only where one is free, also in an event that is oversold already |
| `EngagementCrm.SeatsAreBounded` | apps/api/src/modules/events/events.service.ts:213-222 | in all runs, occupied seats exceed the capacity by at most the status changes into a seat that happen in the run |
| `EngagementCrm.KeepsSeatsExactly` | apps/api/src/modules/engagement/engagement.service.ts:77-141 | a step keeps events from being oversold if and only if it does not write a seat-taking status over a registration without a seat in a full event, moves off the waiting list apart |
| `EngagementCrm.NeverOversoldExactly` | apps/api/src/modules/engagement/engagement.service.ts:77-141 | along a run no event is ever oversold if and only if no step does that |
| `EngagementCrm.SeatsAreRespected` | apps/api/src/modules/events/events.service.ts:213-222 | in runs without such a step, harmless ones among them, occupied seats exceed the capacity by at most the moves off that event's waiting list that happen in the run |
| `EngagementCrm.CapacityIsFixed` | apps/api/src/modules/events/events.service.ts:31-35 | along every run an event keeps its capacity, so the bound on seats is against the original one |
| `EngagementCrm.OneRegistrationPerAddress` | apps/api/src/modules/events/events.service.ts:188-211 | an event has one registration per address, and each asked for enrichment exactly once |
| `EngagementCrm.HistoryIsAPath` | apps/api/src/modules/engagement/engagement.service.ts:33-38 | through all entry points, in harmless runs, every status history is a path in the table of at most three moves; DECLINED, ATTENDED and NO_SHOW are never left |
| `EngagementCrm.BookingKeepsApartExactly` | apps/api/src/modules/engagement/engagement.service.ts:148-153 | after a booking that is made, meetings are apart if and only if they were and its slot was free at that time, whatever the search found before |
| `EngagementCrm.MeetingsApartExactly` | apps/api/src/modules/engagement/engagement.service.ts:143-157 | after any run, no two meetings overlap if and only if every booking that was made found its slot free then |
| `EngagementCrm.BarredStays` | apps/execution-worker/src/engagement/communication-policy.ts:17-19 | missing consent, suppression and a booked meeting are permanent grounds of refusal in all runs |
| `EngagementCrm.DoomedStays` | apps/execution-worker/src/engagement/communication-policy.ts:17-20 | and DECLINED is one in harmless runs |
| `EngagementCadence.ScheduleAdds` | apps/api/src/modules/engagement/engagement.service.ts:269-270 | scheduling adds exactly the missing steps and leaves existing actions alone |
| `EngagementCadence.RemindersAhead` | apps/api/src/modules/engagement/cadence-schedule.ts:13-23 | the welcome is always scheduled, and of the reminders exactly those still ahead |
| `EngagementCadence.RedeliveryAddsNothing` | apps/execution-worker/src/enrichment/process-lead-enrichment.ts:185-206 | enrolling again at the same time or later schedules nothing new |
| `EngagementCadence.UpdateKeepsCadence` | apps/api/src/modules/engagement/engagement.service.ts:77-101 | status changes keep the invariant of actions, holders, messages and mail, however old the status read |
| `EngagementCadence.DraftKeepsLedger` | apps/execution-worker/src/engagement/scheduled-action-dispatcher.ts:90-97 | storing a draft keeps messages and completed cadence actions in one-to-one correspondence |
| `EngagementCadence.ClaimedIsNotOut` | apps/execution-worker/src/engagement/scheduled-action-dispatcher.ts:104-107 | while no action is claimed from a dispatcher at work, a message whose send is claimed has not gone out; the branch for sent messages is for leases that run out under a live dispatcher |
| `EngagementCadence.CommitKeepsCadence` | apps/execution-worker/src/engagement/scheduled-action-dispatcher.ts:123-127 | recording a send keeps message status, send action and provider in agreement |
| `EngagementCadence.RunKeepsInv` | apps/execution-worker/src/engagement/scheduled-action-dispatcher.ts:37-128 | the joint invariant holds in every reachable state, with crashes, reclaimed leases of dead dispatchers, and old readings |
| `EngagementCadence.RunKeepsFitting` | apps/api/src/modules/engagement/engagement.service.ts:266-272 | in harmless runs follow-ups exist only for the final status they are written for |
| `EngagementCadence.KeepsOneKindExactly` | apps/api/src/modules/engagement/engagement.service.ts:266-272 | after a step a registration has one kind of follow-ups if and only if it had before and the step is not an operator's change that finds the other kind scheduled |
| `EngagementCadence.OneKindExactly` | apps/api/src/modules/engagement/engagement.service.ts:266-272 | after any run a registration has one kind of follow-ups if and only if no such change is part of the run |
| `EngagementCadence.HarmlessKeepsOneKind` | apps/api/src/modules/engagement/engagement.service.ts:266-272 | harmless runs have no such change |
| `EngagementCadence.RunKeepsLinks` | apps/execution-worker/src/engagement/scheduled-action-dispatcher.ts:130-138 | public links refer to registrations that exist, in every reachable state |
| `EngagementTheorems.CadenceIsBounded` | apps/execution-worker/src/enrichment/process-lead-enrichment.ts:185-206 | in every run, whatever old readings are about, a registration is written at most five event messages and six commercial ones, and three commercial ones if no operator's change finds the other kind of follow-ups scheduled |
| `EngagementTheorems.DecisionsAreNotLimited` | apps/execution-worker/src/engagement/communication-policy.ts:21-22 | CADENCE_LIMIT_REACHED never arises when an event step is decided, in any run, nor for a follow-up of a registration with one kind of them |
| `EngagementTheorems.SendsAreNotLimited` | apps/execution-worker/src/engagement/communication-policy.ts:21-22 | nor when the send of an event message is checked, in any run, or of such a follow-up |
| `EngagementTheorems.SendActionTellsTheStatus` | apps/execution-worker/src/engagement/scheduled-action-dispatcher.ts:92-127 | every outbound message has its send action, COMPLETED if and only if the message is SENT, DELIVERED or BOUNCED, and then the provider took it |
| `EngagementTheorems.OneMailPerStep` | apps/execution-worker/src/engagement/email-provider.ts:29-34 | with a provider that deduplicates by message id, and leases that outlast the work of a live dispatcher, each step of a cadence is mailed at most once, crashes included |
| `EngagementTheorems.GoAheadOnlyWhenFree` | apps/execution-worker/src/engagement/scheduled-action-dispatcher.ts:108-122 | a check lets a message go only to a lead that is not blocked, for a registration that is not refused |
| `EngagementTheorems.BlockedLeadsGetNoMail` | apps/api/src/modules/engagement/engagement.service.ts:274-277 | once a lead is blocked and nothing is under way, no continuation mails it for that purpose, re-registration and erasure included |
| `EngagementTheorems.BlockedIsSafeExactly` | apps/execution-worker/src/engagement/scheduled-action-dispatcher.ts:108-127 | a blocked lead is safe from all future runs if and only if no send with its go-ahead is under way to it |
| `EngagementTheorems.DoomedRegistrationsGetNoMail` | apps/execution-worker/src/engagement/scheduled-action-dispatcher.ts:108-122 | once declined, booked, without consent or blocked, and with nothing under way, no harmless continuation mails anything for a registration, even if enrichment enrols it later |
| `EngagementTheorems.DoomedIsSafeExactly` | apps/execution-worker/src/engagement/scheduled-action-dispatcher.ts:108-127 | such a registration is safe from all harmless continuations if and only if no send with its go-ahead is under way for it |
| `EngagementTheorems.BarredIsSafeExactly` | apps/execution-worker/src/engagement/scheduled-action-dispatcher.ts:108-127 | booked, without consent or blocked, it is safe from all continuations if and only if nothing is under way for it |
| `EngagementHistories.BlockedCanBeUnderWay` | apps/api/src/modules/engagement/engagement.service.ts:203-215 | a reachable state with a blocked lead and a send under way to it: the lead withdraws between the check and the send |
| `EngagementHistories.DeclinedCanBeUnderWay` | apps/api/src/modules/engagement/engagement.service.ts:77-101 | the same with a declined registration |
| `EngagementHistories.DeclinedCanBeLeft` | apps/api/src/modules/engagement/engagement.service.ts:77-101 | a run through a declined registration to a confirmed one, with readings that were all true earlier in the run |
| `EngagementHistories.OldReadingsCanOversell` | apps/api/src/modules/engagement/engagement.service.ts:77-101 | such a run to an oversold event without any move off its waiting list |
| `EngagementHistories.OldReadingsCanDoubleBook` | apps/api/src/modules/engagement/engagement.service.ts:148-153 | such a run to overlapping meetings: two bookings that both searched before either was made |
| `FollowUpHistories.OldReadingsCanWriteFour` | apps/api/src/modules/engagement/engagement.service.ts:77-101 | such a run to a registration that has been written more than three follow-ups: ATTENDED and NO_SHOW were both allowed from CONFIRMED |
| `FollowUpHistories.OldReadingsCanReachTheLimit` | apps/execution-worker/src/engagement/communication-policy.ts:21-22 | such a run to a claimed follow-up that is refused with CADENCE_LIMIT_REACHED |
| `EngagementHistories.LostLeaseDraftsTwice` | apps/execution-worker/src/engagement/scheduled-action-dispatcher.ts:41-41 | from a reachable state, a claim over a live dispatcher whose lease ran out leads to two messages for one step |
| `EngagementHistories.LostLeaseFindsItSent` | apps/execution-worker/src/engagement/scheduled-action-dispatcher.ts:104-107 | and to a dispatcher that finds its message sent already |
| `EngagementRows.TableIsOneRankUp` | apps/api/src/modules/engagement/engagement.service.ts:33-38 | a move in the table goes exactly one rank up, or declines a registration that is not at the end yet |
| `EngagementRows.EventsMoveOneRankUp` | apps/api/src/modules/events/events.service.ts:107-134 | an event moves exactly one rank up, or is cancelled when published or live |
| `EngagementRows.MoveEventMoves` | apps/api/src/modules/events/events.service.ts:107-134 | publishing looks at the status it writes over; going live, completing and cancelling go by the status read before |
| `EngagementRows.RegisterRegisters` | apps/api/src/modules/events/events.service.ts:172-297 | registering an address for an open event: nothing changes if it is registered for it, and otherwise exactly the rows of a new registration are added, seated if and only if fewer seats are occupied than there are |
| `EngagementRows.UpdateMoves` | apps/api/src/modules/engagement/engagement.service.ts:77-101 | an operator's change, row by row: the new status, a stopped cadence or the follow-ups, and nothing else |
| `EngagementRows.InboundReplies` | apps/api/src/modules/engagement/engagement.service.ts:113-141 | a reply, row by row: the stored message, the status it leaves, the suppression of an opt-out, and the stopped cadence |
| `EngagementRows.BookBooks` | apps/api/src/modules/engagement/engagement.service.ts:143-157 | a booking adds the meeting, stops the cadence of its registration, and changes nothing else |
| `EngagementRows.OverlapsExactly` | apps/api/src/modules/engagement/engagement.service.ts:148-153 | two slots overlap if and only if some time is in both; back to back is allowed |
| `EngagementRows.ConsumeUsesLink` | apps/api/src/modules/engagement/engagement.service.ts:159-174 | a link that is used, row by row: which status each kind makes of which, what it stops, and whom it suppresses |
| `EngagementRows.IssuedLinkWorksOnce` | apps/api/src/modules/engagement/engagement.service.ts:159-174 | an issued link does what its kind says once before it expires, and a second use changes nothing at any time |
| `EngagementRows.WebhookReports` | apps/api/src/modules/engagement/engagement.service.ts:176-194 | a report of the mail provider, row by row: the receipt, the status of the message, and the suppression of a bounced one |
| `EngagementRows.WithdrawWithdraws` | apps/api/src/modules/engagement/engagement.service.ts:203-215 | a withdrawal, row by row: exactly the lead's consents for the purpose are gone, and exactly the cadences read are stopped |
| `EngagementRows.EnrichmentEnriches` | apps/execution-worker/src/enrichment/process-lead-enrichment.ts:157-207 | an enrichment, row by row: enrolled exactly with consent and not disqualified, and exactly the missing steps ahead are added |
| `EngagementRows.JudgesExactly` | apps/execution-worker/src/engagement/communication-policy.ts:16-26 | the policy refuses if and only if a ground holds in the rows (no consent, suppression, meeting, DECLINED, five event or four commercial messages sent), and allows if and only if none holds and the local hour is from 8 to 18 |
| `EngagementRows.DecidesExactly` | apps/execution-worker/src/engagement/scheduled-action-dispatcher.ts:60-83 | a claimed step is cancelled, put back or drafted by exactly these conditions, and nothing else changes |
| `EngagementRows.ChecksExactly` | apps/execution-worker/src/engagement/scheduled-action-dispatcher.ts:100-122 | a claimed send is completed when its message is out, suppressed and cancelled, put back, or handed over with the message's own registration and purpose, by exactly these conditions |
| `EngagementServices.EngagementService.ScheduleSteps` | apps/api/src/modules/engagement/engagement.service.ts:269-270 | the upsert loop computes the scheduling function |
| `EngagementServices.EngagementService.UpdateRegistrationStatus` | apps/api/src/modules/engagement/engagement.service.ts:77-101 | refused, with nothing changed, if and only if the registration is missing or the table does not allow the move for the status read; otherwise done: exactly one step with that reading is added, after whatever others did meanwhile; row by row, the registration has the new status, DECLINED stops its cadence, ATTENDED and NO_SHOW cancel what was pending and schedule the three follow-ups for them, and nothing else changes |
| `EngagementServices.EngagementService.ReceiveInbound` | apps/api/src/modules/engagement/engagement.service.ts:113-141 | a provider id known when it is looked up is a duplicate, one that turns up meanwhile fails with nothing written, and otherwise the reply is stored by exactly one step; row by row, the registration becomes DECLINED or CONFIRMED exactly as the status read before allows, the refusal winning, an opt-out blocks the lead, and opting out, a hand-off and declining stop the cadence |
| `EngagementServices.EngagementService.Book` | apps/api/src/modules/engagement/engagement.service.ts:143-157 | refused if and only if the search finds an overlap or there is nothing to book; otherwise done: one step with what the search found is added, the slot is booked, and the cadence of the registration is stopped |
| `EngagementServices.EngagementService.UsePublicLink` | apps/api/src/modules/engagement/engagement.service.ts:159-174 | a link works once and before it expires; over the rows before and after, CONFIRM makes a REGISTERED registration CONFIRMED and leaves all actions alone, DECLINE makes an open one DECLINED, in all other cases the status and always every other registration stays; declining and unsubscribing leave nothing pending or dispatching for an enrolled registration, and unsubscribing blocks the lead for the link's purpose |
| `EngagementServices.EngagementService.ReceiveEmailWebhook` | apps/api/src/modules/engagement/engagement.service.ts:176-194 | a provider event counts once per receipt: done, already done and failed are told apart by what the transaction finds; the message becomes BOUNCED or DELIVERED as reported, or has the status read before, and a bounce or complaint blocks the lead for the message's purpose |
| `EngagementServices.EngagementService.WithdrawConsentOf` | apps/api/src/modules/engagement/engagement.service.ts:203-215 | for every lead that exists: the lead is suppressed for the purpose, exactly its consents for that purpose are gone, for all events, and exactly the cadences of the registrations read before are stopped |
| `EngagementServices.EngagementService.CompleteLeadEnrichment` | apps/execution-worker/src/enrichment/process-lead-enrichment.ts:157-207 | an enrichment not completed when looked up is completed by one step after the provider's answer, and one that is completed adds none; the registration is enrolled, with the welcome and exactly the reminders still ahead, if and only if it has event consent and is not disqualified |
| `EngagementServices.EngagementService.RegisterWithRetries` | apps/api/src/modules/events/events.service.ts:153-170 | with others acting before each of up to three attempts, exactly one registration step is added if some attempt is not aborted and none otherwise; a new address gets a REGISTERED row if and only if fewer seats are occupied than there are when the transaction begins, and a WAITLISTED one otherwise, with event consent always and commercial consent if and only if it was asked for; a known address and a closed event change nothing |
| `ScheduledActionDispatcher.OthersKeep` | apps/execution-worker/src/engagement/scheduled-action-dispatcher.ts:37-53 | whatever others do, a dispatcher's phase stays as it is |
| `ScheduledActionDispatcher.ActionDispatcher.TryClaim` | apps/execution-worker/src/engagement/scheduled-action-dispatcher.ts:41-42 | a claim is won if and only if the action is pending, or was left dispatching by a dispatcher that is gone, and nobody holds it |
| `ScheduledActionDispatcher.ActionDispatcher.ProcessAgentDecision` | apps/execution-worker/src/engagement/scheduled-action-dispatcher.ts:60-98 | over the rows the transaction finds: the action is cancelled if and only if some ground of refusal holds, put back to PENDING if and only if none holds and the local hour is outside 8 to 18, and drafted if and only if none holds and it is inside; a stored draft completes it with a scheduled message for its registration and purpose and the action to send it; it throws only for a missing context, a failed draft, or one that cannot be stored |
| `ScheduledActionDispatcher.ActionDispatcher.ProcessMessageSend` | apps/execution-worker/src/engagement/scheduled-action-dispatcher.ts:100-128 | over the rows the transaction finds: the message is suppressed and its send cancelled if and only if it is not out and some ground holds, put back if and only if only the hour speaks against it, and handed to the provider if and only if nothing does; what is recorded is what the provider has said; it throws only for a missing context, without an acceptance, or when the acceptance cannot be recorded |
| `ScheduledActionDispatcher.ActionDispatcher.PutOff` | apps/execution-worker/src/engagement/scheduled-action-dispatcher.ts:46-49 | after an error the action is FAILED if this was the last attempt, and PENDING otherwise |
| `ScheduledActionDispatcher.ActionDispatcher.DispatchDueScheduledActions` | apps/execution-worker/src/engagement/scheduled-action-dispatcher.ts:37-53 | under any interference a batch continues the run; the keys it tries to claim are the candidates, each once and in order; it judges every action it wins, finishes or fails it, gives none up otherwise, and reports just these numbers |
| `EngagementLimits.LimitHoldsInRuns` | apps/execution-worker/src/engagement/communication-policy.ts:21-22 | in every run of the engagement machine, sent and delivered messages of a lead about an event for a purpose stay below the limit plus the dispatchers, even when a late report turns a bounce into a delivery |
| `SendLimit.RunKeepsLimit` | apps/execution-worker/src/engagement/scheduled-action-dispatcher.ts:108-127 | messages out plus sends under way stay below the limit plus the dispatchers, because any bounce blocks |
| `SendLimit.LimitHolds` | apps/execution-worker/src/engagement/communication-policy.ts:21-22 | for any sends and webhooks, sent-or-delivered messages exceed the limit by at most the dispatchers less one |
| `SendLimit.LimitIsExceededByAll` | apps/execution-worker/src/engagement/scheduled-action-dispatcher.ts:108-127 | from nothing sent, a history in which that bound is reached, for any number of dispatchers |
| `SendLimit.LimitHoldsExactly` | apps/execution-worker/src/engagement/communication-policy.ts:21-22 | starting with nothing sent, the limit is never exceeded if and only if the lead is blocked from the start or at most one dispatcher is at work |
| `Retention.AddressDeterminesId` | apps/api/src/modules/engagement/engagement.service.ts:231-231 | an anonymous address determines the lead id it is made from, whatever ids look like |
| `Retention.SelectedExactly` | apps/api/src/modules/engagement/engagement.service.ts:239-246 | a lead is selected if and only if it is not anonymised, has registrations, and the retention periods of the ended or cancelled events of all of them are over |
| `Retention.SelectionIsMonotone` | apps/api/src/modules/engagement/engagement.service.ts:237-246 | on the same data a later run selects a superset |
| `Retention.SecondRunSelectsNobody` | apps/api/src/modules/engagement/engagement.service.ts:237-249 | after a run, a second one at the same time selects nobody |
| `Retention.RetentionJob.CollectLeads` | apps/api/src/modules/engagement/engagement.service.ts:239-246 | the nested loops collect exactly the unmarked leads with an expired registration and no unexpired one |
| `Retention.RetentionJob.RunRetention` | apps/api/src/modules/engagement/engagement.service.ts:217-249 | a run succeeds if and only if no selected lead's anonymous address is taken, and then erases exactly the selected leads, row by row: anonymous and suppressed, without consents, suppression rows, messages, links and enrichments, and nobody else's; otherwise it has erased exactly some of them and stops at one whose address is taken |

## Left out

- ScheduledActionDispatcher.ActionDispatcher.DispatchDueScheduledActions: due times and lease times are not modelled; any pending action may be claimed at any time, and a dispatching one only when its former dispatcher is gone, that is, leases are taken to outlast the work of a live dispatcher. Reading the policy's inputs and writing a refusal is one step. The numbers of finished and failed actions may be less than the candidates, since claims that somebody else won are skipped.
- EngagementTheorems.OneMailPerStep: deduplication by message id is the provider's promise and is taken as given, and so are leases that outlast the work of a live dispatcher.
- EngagementCadence.ClaimedIsNotOut: a claim over a live dispatcher is not a step of the machine; EngagementHistories shows what it leads to.
- EngagementCrm.RegisterKeepsCrm: workspaces are left out (there is one), e-mail addresses arrive normalised, and edits of an event's capacity or dates (`EventsService.update`) are not steps.
- EngagementServices.EngagementService.Book: the calendar provider is left out; how a booking with an empty slot is refused is not told apart from a missing registration.
- EngagementServices.EngagementService.ReceiveInbound: the classification of a reply by regular expressions is given as booleans.
- EngagementServices.EngagementService.RegisterWithRetries: which attempts the database aborts is given, not derived from the steps of others.
- Retention.RetentionJob.RunRetention: requires that leads of registrations exist, which the database enforces with a foreign key; nobody else acts between the erasures of one run.
- CanvasLevels.GetNodeLevels: requires that the loop ends, by the exact condition of `CanvasLevels.EndsExactlyWithoutCycle`.
- CommunicationPolicy.RetryReachesWindow: for a fixed offset from UTC; daylight saving time is left out.
- ExecutionWorker.Worker.HandleDelivery: a delivery that does not parse is left out. Executions are never deleted. AI trace events, logging and the text of errors are left out. Event and command ids are numbers that never repeat, in place of random ids.
- ExecutionTheorems.SucceededRanItsDefinition: the plan is fixed when the execution is created, since a version's definition does not change; the worker computes it at each delivery, as `ExecutionTheorems.MakePlan` does. Outputs of nodes are not part of the protocol.
- NodeOrdering.OrderWorkflowNodes: which of several possible orders is returned is not stated; `NodeExecution.SolutionIsUnique` makes the result of a run independent of it, and its last node only decides which sink's output is the final one.
- NodeExecution.ExecuteWorkflowNodes: node executors other than the trigger are one uninterpreted deterministic function; JSON objects have no key order.
- LeadEnrichmentConsumer.RetriesAreBounded: the number that `parseInt` finds in a text header is given, not computed.
- Transactions are taken to be atomic, as are reads and writes of the policy's inputs; inside one, statements run in the order of the source.
- Node configuration schemas beyond the ids of nodes and edges, and the other node executors.
- Enrolment status, phase and step counters, interest signals, qualification, audit and privacy records, drafting, and the reports of the dashboard: no property above depends on them.
- Keys of scheduled actions are structured values instead of strings; keys of lifecycle events are strings.
- Authentication, credentials, webhook signatures, the AI orchestrator, the web application apart from the canvas levels, and workflow version management.
