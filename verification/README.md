# Coma Messenger: verified model of the agent back end and its ledgers

Coma Messenger lets AI agents work in chats. This project models the parts of it whose correctness depends on many
operations together, and proves what they promise: the queue of agent runs with its leases, the budget that provider
calls draw on, the stream parsers, the trigger dispatcher, the storage quota, the event log, chat membership, the
draft/publish/rollback machine of an agent, tool confirmations, the runtime's streaming loop, and token refresh across
browser tabs.

A table is a map or a sequence, a transaction is one step (or several, where locks are held across statements), the clock
is a parameter of the step, and identifiers and tokens are fresh values. Operations that change rows are methods of a
class whose fields are the tables; each is proved equal to a step function, and the lemmas are about all sequences of
steps. Costs are whole units of 1e-8 USD.

## Where to look

| files | subject |
|---|---|
| `AgentRuns`, `RunQueue` | run lifecycle, fencing, retries, cancellation |
| `ClaimTransactions` | interleaved claim transactions with row locks and an advisory lock |
| `Pricing`, `Budget`, `ProviderCalls` | integer prices, decimal text, the spend ledger |
| `Chunks`, `Sse`, `Providers`, `Observer` | incremental event-stream parsing and answer assembly |
| `TriggerDispatch`, `TriggerService`, `Cascades`, `Schedule` | event and schedule triggers |
| `StorageQuota`, `StorageService` | the reserved/used ledger |
| `EventLog`, `Retention` | live and catch-up readers, pruning |
| `Membership`, `ChatService` | memberships and their events |
| `AgentConfig`, `Versions`, `VersionService` | normalization, drafts, publication, rollback |
| `Confirmations`, `ConfirmationService` | human approval of write tools |
| `Streaming`, `ProviderLoop` | delta coalescing, the provider and tool loop |
| `Session` | token refresh across tabs |
| `Collections` | sums, filters, ascending lists |

`dafny verify dfyconfig.toml` checks the whole project.

## What turned out not to hold

Each of these has a lemma that names the input, and a lemma that says exactly when the property does hold.

* A provider call started between a completion's usage check and its commit loses its reservation
  (`Budget.LateStartLosesReservation`); the commit conserves the spend if and only if the run gets no usage row or no call of
  it was charged in between (`Budget.CommitConservesExactlyWhen`). The spend limit survives this race
  (`Budget.SpendStaysWithin`).
* A usage report whose price wraps below zero in 64-bit arithmetic is refused, so its call stays open
  (`Pricing.HugeUsageIsRefused`, `Pricing.GatewayCostIsAcceptedIff`).
* The gateway's usage observer depends on how the stream was cut exactly when a CRLF blank line precedes an LF blank line
  or a completed event was ever over the cap (`Observer.ChunkingMattersExactlyWhen`, `Observer.MixedEndingsLoseUsage`).
* A run for an eligible event that is dispatched while the agent's connection is unavailable is lost for good
  (`TriggerDispatch.OutageLosesRun`); a drained log gives the runs of one pass if and only if no dispatch during an outage
  had an eligible event, and otherwise exactly those runs are missing (`TriggerDispatch.DrainedLogIsOnePass`).
* The retention bound is honest exactly when what is stored is the end of the log (`Retention.BoundIsHonestExactlyWhen`).
  Of two overlapping transactions the one that starts first can take the later number, and a row can be held by another
  transaction: either leaves a hole above the bound, under a clock that never goes back (`Retention.OverlapIsReachable`,
  `Retention.LockedRowLeavesHole`). What is stored stays the end of the log if and only if no event that a sweep leaves
  precedes one that it deletes (`Retention.HistoryStaysEndExactlyWhen`).
* The catch-up query shows a deactivated actor events outside chats that the live query does not
  (`EventLog.DeactivatedActorSeesMore`, `EventLog.ReadersAgreeExactlyWhen`).
* Two owners who leave a group at the same time leave it without an owner (`Membership.TwoOwnersLeave`,
  `Membership.LosesLastOwnerExactlyWhen`).
* Creating, publishing and deleting an agent rewrite its memberships without events (`Membership.PublishedAgentHasNoEvent`);
  membership agrees with the log if and only if every such rewrite leaves the memberships as they are
  (`Membership.AgreesWithLogExactlyWhen`).
* Rolling back a version that uses an LLM connection publishes what the connection says now
  (`Versions.ChangedConnectionIsPublished`); the version is reproduced if and only if it is still accepted, the agent is ready
  for it, and its connection exists and says what the version recorded (`Versions.RollbackReproducesExactlyWhen`).
* An approved confirmation whose process died stays approved for ever (`Confirmations.CrashAbandonsApproval`); it can still
  end if and only if a process is at work on it (`Confirmations.ApprovalCanEndExactlyWhen`).
* A rejected refresh request is repeated by the next call in line (`Session.RejectedRequestIsRepeated`); calls that observed
  the same revision cause one request more than were rejected (`Session.ReturnedMeansRequested`).
* Calls that observed the same revision can return different tokens, even when everything posted is delivered before every
  check (`Session.StaleCallGetsLaterTokens`); a call returns the tokens of the request for the revision it observed if and
  only if that revision was the newest when it began, or one newer was out and no call ahead of it that had observed that one
  obtained tokens (`Session.ReturnsItsRequestExactlyWhen`).

## Model

| member | source | states |
|---|---|---|
| `AgentRuns.ExecKeepsInv` | core/internal/agentrun/service.go:326-358 | over every sequence of steps of all workers and users: a lease token exactly while running and never shared, finished_at exactly when terminal, no cancel request while queued, attempt within its maximum |
| `AgentRuns.TerminalRunsAreFrozen` | core/internal/agentrun/service.go:899-907 | terminal statuses are absorbing: no later step changes anything about the row |
| `AgentRuns.StaleTokenStaysStale` | core/internal/agentrun/service.go:489 | a token that was issued and is not the current lease never becomes the current lease again |
| `AgentRuns.StaleTokenNeverSucceeds` | core/internal/agentrun/service.go:515-523 | a heartbeat, completion or failure that presents a lost token changes nothing, whatever happened since |
| `AgentRuns.StatusChangesDecrease` | core/internal/agentrun/service.go:927-939 | every status change strictly decreases (max_attempts - attempt, status rank) lexicographically, and nothing else moves the attempt |
| `AgentRuns.ChangesAreBounded` | core/internal/agentrun/service.go:941-947 | the number of status changes along any execution is bounded by an explicit measure of the row |
| `AgentRuns.ClaimsAreBounded` | core/internal/agentrun/service.go:489 | the number of claims along any execution is bounded by the attempts left |
| `AgentRuns.QueuedRunIsClaimedBoundedlyOften` | core/internal/agentrun/service.go:440-445 | a queued run at attempt a is claimed at most max_attempts - a + 1 times and changes status at most twice that often |
| `AgentRuns.FailureIsRetriedExactlyWhen` | core/internal/agentrun/service.go:927-939 | a failure is retried exactly when it is not canceled, not past its deadline, not over budget and has an attempt left, and the retry can be claimed exactly between its backoff and its deadline |
| `AgentRuns.ReapLeavesNothingOverdue` | core/internal/agentrun/service.go:941-947 | after reaping no run is overdue, runs that were not are untouched, requeued ones can be claimed at once, and reaping again changes nothing |
| `AgentRuns.CancellationIsFinal` | core/internal/agentrun/service.go:326-358 | once cancellation is requested a run is never claimed or requeued, keeps its lease while it runs, and can only end canceled |
| `RunQueueService.RunQueue.Invoke` | core/internal/agentrun/service.go:197-304 | defaults, the accepted ranges of timeout and attempts, and the one new queued row |
| `RunQueueService.RunQueue.RequestCancel` | core/internal/agentrun/service.go:326-358 | succeeds exactly for runs that are not terminal; a queued run is canceled at once, a running one is flagged |
| `RunQueueService.RunQueue.Reap` | core/internal/agentrun/service.go:941-947 | the two reaping statements together treat every overdue row exactly once |
| `RunQueueService.RunQueue.ClaimFrom` | core/internal/agentrun/service.go:452-500 | claims the first candidate whose chat has capacity and nothing else, or nothing when none has |
| `RunQueueService.RunQueue.HeartbeatForAgent` | core/internal/agentrun/service.go:503-525 | extends the lease exactly for a duration of 5 to 300 seconds (60 when none is given) and the holder of a live lease; a wrong duration is invalid, anyone else conflicts, and both change nothing |
| `RunQueueService.RunQueue.Complete` | core/internal/agentrun/service.go:871-925 | succeeds exactly for the holder of the lease and ends the run completed or canceled |
| `RunQueueService.RunQueue.Fail` | core/internal/agentrun/service.go:927-939 | validates the error code, succeeds exactly for the holder, and retries or ends the run as the failure rules say |
| `RunQueueService.RunQueue.DeleteAgent` | core/internal/agent/service.go:1022-1024 | the two statements cancel queued runs and flag running ones, each row once |
| `ClaimTransactions.ConcurrencyIsNeverExceeded` | core/internal/agentrun/service.go:440-500 | for every interleaving of claim transactions, an agent's running runs in a chat never exceed its limit |
| `ClaimTransactions.NoRunIsClaimedTwice` | core/internal/agentrun/service.go:446-452 | no run is a candidate of two open transactions, and every candidate is still queued |
| `ClaimTransactions.CommitClaimsItsCandidate` | core/internal/agentrun/service.go:486-500 | an admitted transaction's commit always finds its run queued and gives it the new lease |
| `Pricing.PrintedCostReadsBack` | core/internal/agentprovider/service.go:299-308 | the eight-digit text of every amount is accepted as a cost and read back as the same amount |
| `Pricing.PrintedCostIsAcceptedIff` | core/internal/agentprovider/service.go:299-308 | the printed text matches the accepted cost pattern exactly when the amount is not negative |
| `Pricing.PriceIsCeiling` | core/internal/agentprovider/service.go:299-308 | below the 64-bit limit the price is the exact ceiling, rounded up by less than one unit |
| `Pricing.PriceIsMonotone` | core/internal/agentprovider/service.go:299-308 | more tokens never cost less |
| `Pricing.GatewayStaysWithinReservation` | core/internal/agentprovider/service.go:154-164 | what the gateway reports never exceeds what it reserved, always for unpriced models, and for priced ones when the observed tokens stay within the reserved ones |
| `Pricing.GatewayCostIsAcceptedIff` | core/internal/agentprovider/service.go:154-164 | the cost reported for a finish, completed or not, is accepted exactly when the 64-bit price did not wrap below zero |
| `Pricing.HugeUsageIsRefused` | core/internal/agentprovider/service.go:299-308 | thirty billion output tokens of a priced model wrap below zero and produce a cost text that is refused |
| `Budget.StartAddsItsReservation` | core/internal/agentrun/service.go:603-672 | a start adds exactly its reservation to the agent's spend, and every other outcome nothing |
| `Budget.StartStaysWithinLimits` | core/internal/agentrun/service.go:637-655 | after a successful start the spend of the day and of the month is within each limit that is set |
| `Budget.StartRespectsRate` | core/internal/agentrun/service.go:651-661 | a start keeps the agent's calls of the last minute, the new one included, within its rate |
| `Budget.FinishSettlesExactly` | core/internal/agentrun/service.go:684-741 | a finish, trusted or not, completed or failed, changes the spend by exactly actual minus reserved |
| `Budget.CompletionReplacesCalls` | core/internal/agentrun/service.go:871-925 | completing a run replaces exactly the weight of its calls by the reported cost, and only when it gets a usage row |
| `Budget.CompletionConservesSpend` | core/internal/agentrun/service.go:764-793 | a worker's completion leaves the spend of the window unchanged up to calls made before the window |
| `Budget.CheckThenCommit` | core/internal/agentrun/service.go:527-540 | a usage check with its commit right after it is the worker's completion |
| `Budget.StartDuringCompletionLosesReservation` | core/internal/agentrun/service.go:527-540 | an admitted start between the usage check and the commit drops out of the spend with exactly its reservation |
| `Budget.LateStartLosesReservation` | core/internal/agentrun/service.go:527-540 | one run, one check, one start, one commit: the call is open and nothing is spent |
| `Budget.CommitConservesExactlyWhen` | core/internal/agentrun/service.go:527-540 | whatever transactions come between a usage check and its commit, the commit conserves the spend if and only if the run gets no usage row or no call of it was charged since the check |
| `Budget.SpendStaysWithin` | core/internal/agentrun/service.go:603-741 | over every run of the ledger, usage checks and commits interleaved with calls, spend never exceeds the limit plus the sum of positive (actual - reserved) |
| `Budget.GatewayNeverOverruns` | core/internal/agentprovider/service.go:129-164 | when every start reserves the gateway's own estimate and the observed tokens stay within the estimated ones, no call ever overruns its reservation |
| `Budget.GatewaySpendStaysWithinLimit` | core/internal/agentprovider/service.go:129-164 | from an empty ledger, such runs never spend more than the limit |
| `Budget.StaleTokenTouchesNoCall` | core/internal/agentrun/service.go:626-633 | a lost lease token can neither start nor finish a provider call, whatever happened since |
| `ProviderCallService.ProviderCalls.SpendOf` | core/internal/agentrun/service.go:637-650 | the two sums over calls and usage rows add up to the spend of the ledger |
| `ProviderCallService.ProviderCalls.StartProviderCall` | core/internal/agentrun/service.go:603-672 | the start transaction with its checks in order, equal to the ledger's step |
| `ProviderCallService.ProviderCalls.FinishProviderCall` | core/internal/agentrun/service.go:684-741 | the finish transaction, equal to the ledger's step |
| `ProviderCallService.ProviderCalls.ProviderUsage` | core/internal/agentrun/service.go:764-793 | refuses while a call of the run is open, and otherwise returns the cost of its completed calls |
| `ProviderCallService.ProviderCalls.CompleteForAgent` | core/internal/agentrun/service.go:527-540 | usage check and completion together, equal to the ledger's step |
| `ProviderCallService.ProviderCalls.Complete` | core/internal/agentrun/service.go:871-925 | the completing transaction with the cost that was read before it |
| `Chunks.SplitComposes` | apps/agent-runtime/src/providers.ts:366-390 | for any stable rule that cuts events off a buffer, feeding a text in two pieces finds the events of the whole |
| `Chunks.FeedIsWhole` | core/internal/agentprovider/service.go:229-243 | feeding any chunks through a capped buffer finds the events of the whole, when none that completes is over the cap |
| `Sse.CompletedBlankIsLast` | apps/agent-runtime/src/providers.ts:388 | a blank line that later text completes starts after every earlier blank line, for all mixtures of LF and CRLF |
| `Sse.SplitsCompose` | apps/agent-runtime/src/providers.ts:387-389 | the runtime's split of a buffer composes over any cut, mixed line endings included |
| `Sse.WrittenStreamReadsBack` | apps/agent-runtime/src/providers.ts:387-389 | a stream written with either line ending is cut into exactly the events written, with nothing left over |
| `Sse.WrittenDataReadsBack` | apps/agent-runtime/src/providers.ts:390-395 | the data of a written event is its values joined by line feeds |
| `Sse.EarlierIsPrefix` | apps/agent-runtime/src/providers.ts:366-415 | later bytes never change what was already yielded, and an error is final |
| `Sse.ReadProviderSSE` | apps/agent-runtime/src/providers.ts:366-415 | under the size limit, what is yielded and how the stream ends depend only on the bytes and not on the chunks; over it, the stream always fails after a prefix |
| `Providers.IndexesAre` | apps/agent-runtime/src/providers.ts:144-145 | one tool call for each index that occurs, in ascending order |
| `Providers.ToolCallsAre` | apps/agent-runtime/src/providers.ts:145-149 | the list of tool calls fails exactly when some arguments do not parse, and otherwise has each call in place |
| `Providers.OpenAIStream` | apps/agent-runtime/src/providers.ts:112-161 | deltas, content, usage, stop reason and tool calls are those of the byte stream, however it is cut: every call field is the concatenation of its pieces per index |
| `Providers.LatestCallExtends` | apps/agent-runtime/src/providers.ts:208-211 | a later piece of JSON extends the arguments of the call that is open at its index, if there is one |
| `Providers.StartedAre` | apps/agent-runtime/src/providers.ts:186-199 | each index with a tool_use block is listed once, ascending |
| `Providers.AnthropicStream` | apps/agent-runtime/src/providers.ts:176-240 | the same for the other provider: a call is its last start with every piece after it |
| `Observer.LaterTextKeepsEvents` | core/internal/agentprovider/service.go:231-245 | among streams without a CRLF blank line before an LF one, later text does not change the first event |
| `Observer.ChunkingMattersExactlyWhen` | core/internal/agentprovider/service.go:229-261 | the completed events are the same for every way of cutting a stream if and only if it has no CRLF blank line before an LF one and no completed event was over 1 MiB while pending |
| `Observer.CleanFeed` | core/internal/agentprovider/service.go:229-243 | such streams yield the events of the whole for every chunking |
| `Observer.SameEvents` | core/internal/agentprovider/service.go:229-261 | on a stream with one line-ending style the gateway observes exactly the events that the runtime parses |
| `Observer.UsageObserver.Observe` | core/internal/agentprovider/service.go:229-261 | every event the chunk completes is counted in order and the capped rest stays buffered |
| `Observer.UsageObserver.NoteUsage` | core/internal/agentprovider/service.go:263-288 | each count becomes the last positive number the payload reports for it, in the fields of the provider, or stays as it is; a positive count never falls back to zero |
| `Observer.NotesLatest` | core/internal/agentprovider/service.go:229-288 | over any events, each count is the last positive number any of their payloads reports for it |
| `Observer.UsageObserver.ObserveAll` | core/internal/agentprovider/service.go:152 | the token counts of a whole stream are the last positive ones that its completed events report; for a clean stream those are its events for every chunking, and with one line-ending style the events the runtime parses |
| `Observer.MixedEndingsLoseUsage` | core/internal/agentprovider/service.go:232-236 | two events with different line endings are both counted when they arrive one by one and neither when they arrive together |
| `TriggerDispatch.BatchIsBetween` | core/internal/agenttrigger/service.go:319-360 | a batch is exactly the visible events between the checkpoint and the batch's last event |
| `TriggerDispatch.FirstWordIsLongest` | core/internal/agenttrigger/service.go:712-718 | the word compared with a command is the longest start of the text without a separator |
| `TriggerDispatch.OnlyMessagesTrigger` | core/internal/agenttrigger/service.go:364-374 | only event triggers listen to anything but new messages, agents are heard only when asked for, and no agent hears itself |
| `TriggerDispatch.ThreadStaysInItsChat` | core/internal/agenttrigger/service.go:383-394 | a run is in a thread only in the chat of its event, and in another chat only when its trigger names that chat |
| `TriggerDispatch.DispatchIsExact` | core/internal/agenttrigger/service.go:319-432 | one dispatch inserts exactly the rows of its batch, and moves the checkpoint forward when anything is pending |
| `TriggerDispatch.DispatchesAreOnePass` | core/internal/agenttrigger/service.go:319-432 | any interleaving of appended events, dispatches of any batch sizes, outages and aborted ones equals one unbatched pass up to exactly the runs that outages withheld, and the checkpoint never decreases |
| `TriggerDispatch.DrainedLogIsOnePass` | core/internal/agenttrigger/service.go:319-432 | once the log is drained the table is that of one pass over everything after the first checkpoint if and only if no dispatch during an outage had an eligible event; otherwise exactly the withheld runs are missing |
| `TriggerDispatch.EveryPairExactlyOnce` | core/internal/agenttrigger/service.go:362-423 | then every event after the first checkpoint has exactly one run, there or withheld by an outage, for each trigger it is eligible for and none for the others |
| `TriggerDispatch.PassedEventsAreNeverRevisited` | core/internal/agenttrigger/service.go:392-425 | no later dispatch, with or without a connection, changes the runs for an event the checkpoint has passed |
| `TriggerDispatch.OutageLosesRun` | core/internal/agenttrigger/service.go:417-432 | an eligible message dispatched without a connection: the log is drained and no continuation ever starts its run |
| `TriggerService.Dispatcher.InsertRuns` | core/internal/agenttrigger/service.go:362-423 | the loop over the triggers of one event inserts exactly its eligible rows that are not there yet |
| `TriggerService.Dispatcher.DispatchAgent` | core/internal/agenttrigger/service.go:319-432 | the dispatch transaction, batch and checkpoint included, equal to the dispatch step |
| `Cascades.TriggeredDepth` | core/internal/agenttrigger/service.go:376-385 | every event-triggered run is one level deeper than its source message and within its agent's maximum |
| `Cascades.CascadeHeight` | core/internal/agenttrigger/service.go:376-385 | the tree of runs one event causes is at most one level higher than the largest max_chain_depth |
| `Cascades.CascadeSize` | core/internal/agenttrigger/service.go:362-423 | and is finite, with an explicit bound from the runs per event and the messages per run |
| `Schedule.SearchIsLeast` | core/internal/agenttrigger/service.go:758-779 | the search finds the least instant strictly after its argument with the right time on an allowed weekday, and always within its nine days |
| `Schedule.NextSchedule` | core/internal/agenttrigger/service.go:758-779 | the loop computes that instant |
| `Schedule.OneRunPerScheduledTime` | core/internal/agenttrigger/service.go:500-520 | at most one run for each scheduled time, whatever is edited and however the dispatchers' clocks differ |
| `Schedule.MissedOccurrencesCollapse` | core/internal/agenttrigger/service.go:479-531 | a due trigger moves strictly past the clock and any number of missed occurrences give at most one run |
| `Schedule.RunsAreOccurrences` | core/internal/agenttrigger/service.go:465-531 | between edits the schedule only moves forward and every run is for an occurrence it has passed, in order |
| `Schedule.TimelyDispatchIsExact` | core/internal/agenttrigger/service.go:465-531 | when each occurrence is dispatched before the next, the runs are exactly the occurrences |
| `Schedule.ScheduleTrigger.DispatchSchedule` | core/internal/agenttrigger/service.go:465-531 | the transaction equals the dispatch step: policy, idempotent insert and next occurrence |
| `Schedule.ScheduleTrigger.Update` | core/internal/agenttrigger/service.go:160-218 | an edit is accepted exactly for a valid schedule in a chat of the agent and restarts it from the clock |
| `StorageQuota.LedgerIsExact` | core/internal/files/service.go:157-178 | over every interleaving: reserved bytes are the sum of open uploads, used bytes the sum of ready files, and both together stay within quota |
| `StorageQuota.OpenExactlyWhenPending` | core/internal/files/service.go:323-342 | a file is pending exactly while its upload is open |
| `StorageQuota.DeleteAvatarNeverTruncates` | core/internal/files/avatar.go:175-183 | the GREATEST(0, ...) of an avatar deletion never truncates |
| `StorageQuota.LateCompletionChangesNothing` | core/internal/files/service.go:454-468 | a completion that arrives after an abort changes nothing |
| `StorageService.FileService.CreateUpload` | core/internal/files/service.go:157-178 | reserves exactly when quota allows, equal to the ledger's step |
| `StorageService.FileService.ClaimUpload` | core/internal/files/service.go:414-437 | hands out a claim exactly for the uploader's active, unexpired upload |
| `StorageService.FileService.CompleteClaim` | core/internal/files/service.go:439-484 | moves the reservation to used bytes once, or changes nothing |
| `StorageService.FileService.CompleteUpload` | core/internal/files/service.go:284-312 | not found exactly when the upload cannot be claimed; otherwise the claim followed by completion, which turns the reservation into used bytes, or by failure, which releases it, for a streaming upload, a store error or a blob of another size |
| `StorageService.FileService.AbortUpload` | core/internal/files/service.go:314-347 | releases the reservation of an open upload of its owner |
| `StorageService.FileService.FailUpload` | core/internal/files/service.go:486-498 | releases the reservation of an upload that failed |
| `StorageService.FileService.PutAvatar` | core/internal/files/avatar.go:104-133 | replaces the old avatar's bytes by the new one's within quota |
| `StorageService.FileService.DeleteAvatar` | core/internal/files/avatar.go:152-196 | gives the avatar's bytes back |
| `StorageService.FileService.SavePreview` | core/internal/files/processing.go:257-303 | adds a preview's bytes once and within quota |
| `EventLog.PageSplits` | core/internal/eventlog/store.go:71-133 | a page is the wanted part of the log up to its last event, and a short page is all of it |
| `EventLog.CatchUp` | core/internal/realtime/session.go:222-268 | paging by last sequence number, with any page sizes, delivers every visible event up to the watermark once and in order |
| `EventLog.Poll` | core/internal/realtime/dispatcher.go:145-190 | paging live events, whose limit counts something else, publishes every event of the range once and in order |
| `EventLog.ReadersAgreeExactlyWhen` | core/internal/eventlog/store.go:71-207 | the live events that list an actor and do not exclude the session equal the catch-up frames, payloads included, if and only if the actor is active or the range has no event outside chats that the catch-up query still shows it |
| `EventLog.DeactivatedActorSeesMore` | core/internal/eventlog/store.go:71-207 | an event outside chats that the catch-up query shows a deactivated actor and the live query does not |
| `Retention.OneDelete` | core/internal/eventlog/retention.go:107-118 | one statement deletes as many rows as it picked, all old, and a short batch leaves no old row that was not locked |
| `Retention.EventStore.PruneOne` | core/internal/eventlog/retention.go:105-126 | the loop ends; only old events go, the ones that stay were locked in one batch, and the count is exact |
| `Retention.EventStore.Prune` | core/internal/eventlog/retention.go:76-128 | the sweep over all organizations with their watermarks at its start, and its total |
| `Retention.UnlockedPruneIsExact` | core/internal/eventlog/retention.go:76-128 | without locked rows exactly the old events go, whatever the batch size |
| `Retention.PruneLeavesEndExactlyWhen` | core/internal/eventlog/retention.go:108-113 | what is left is the end of the log exactly when no event kept for its age precedes an old one |
| `Retention.BoundIsHonestExactlyWhen` | core/internal/eventlog/store.go:55-67 | every cursor at or above the retention bound is complete if and only if what is stored is the end of the log |
| `Retention.CatchUpMissesNothing` | core/internal/eventlog/store.go:71-133 | a reader at or above the bound sees every visible event of the unpruned log after its cursor, once and in order |
| `Retention.PrunedLogIsComplete` | core/internal/eventlog/retention.go:76-128 | so pruning without locked rows loses nothing for such a reader when events were numbered in the order of their times |
| `Retention.SweepLeavesEndExactlyWhen` | core/internal/eventlog/retention.go:107-118 | from an end of the log, a sweep leaves an end of the log if and only if no event it leaves, because it is younger or held, precedes one it deletes |
| `Retention.HistoryStaysEndExactlyWhen` | core/internal/eventlog/retention.go:105-126 | over any appends, with any times, and any sweeps, whatever rows were held: what is stored stays the end of the log all along if and only if every sweep is clean |
| `Retention.PruneIsSweep` | core/internal/eventlog/retention.go:105-126 | every pruning, with whatever rows were held during its batches, is such a sweep |
| `Retention.OrderedSweepIsClean` | core/internal/eventlog/retention.go:107-118 | when events are numbered in the order of their times, a sweep that leaves no old event is clean |
| `Retention.SweptLogIsComplete` | core/internal/eventlog/store.go:55-133 | after any appends and clean sweeps from an empty log on, a reader at or above the bound misses nothing there ever was after its cursor |
| `Retention.OverlappingTransactionsLeaveHole` | core/internal/chat/chat.go:844-857 | of two overlapping transactions the first to start takes the later number: a sweep between their times leaves a hole above the bound |
| `Retention.OverlapIsReachable` | core/internal/chat/chat.go:844-857 | the same as a history of appends and one sweep of everything old, from an empty log on |
| `Retention.LockedRowLeavesHole` | core/internal/eventlog/retention.go:112 | a row skipped because it was locked leaves a hole above the bound |
| `Membership.MembershipAgreesWithLog` | core/internal/chat/chat.go:844-875 | over every interleaving of checks and transactions: sequence numbers have no gaps, every chat's roles are its creation-time roles followed through its events, and direct chats keep their two members |
| `Membership.AgreesWithLogExactlyWhen` | core/internal/agent/service.go:1594-1604 | with the agent service's rewrites of memberships among the steps, membership agrees with the log all along if and only if every rewrite leaves its agent's memberships as they are |
| `Membership.PublishedAgentHasNoEvent` | core/internal/agent/service.go:1594-1604 | an agent published into a new group is its member, and no event says so |
| `Membership.OnlyOwnersChangeOwners` | core/internal/chat/chat.go:591-760 | whatever changes who owns a chat was done by one of its owners, moderators included |
| `Membership.LosesLastOwnerExactlyWhen` | core/internal/chat/chat.go:716-760 | a transaction leaves its chat without an owner exactly when it takes the role from the only one |
| `Membership.FreshCheckKeepsOwner` | core/internal/chat/chat.go:645-656 | a check that still holds when its transaction runs protects the last owner |
| `Membership.OneAtATimeKeepsOwners` | core/internal/chat/chat.go:622-760 | when operations run one at a time, every group and channel keeps an owner |
| `Membership.BothOwnersLeave` | core/internal/chat/chat.go:716-726 | interleaved, two owners who leave at once leave no member behind, in any state with such a group |
| `Membership.TwoOwnersLeave` | core/internal/chat/chat.go:716-726 | from nothing: a group is created, its creator adds a second owner, both leave, and nobody is left |
| `ChatService.Chats.CollectMembers` | core/internal/chat/chat.go:316-334 | the loop over the named members: the creator owns, the others are members once, an inactive one fails the creation |
| `ChatService.Chats.Create` | core/internal/chat/chat.go:270-357 | a new group or channel with its event, owned by exactly its creator, exactly when it is not direct and nobody named is inactive; otherwise nothing changes |
| `ChatService.Chats.Join` | core/internal/chat/chat.go:478-525 | succeeds exactly for members and for open public groups and channels; a new member joins with one event, and nothing else changes anything |
| `ChatService.Chats.Manage` | core/internal/chat/chat.go:559-769 | adding, changing and removing members: done exactly when check and guard pass, with the guarded statement and its events, or no change at all |
| `ChatService.Chats.AppendDurableEvent` | core/internal/chat/chat.go:844-875 | the next sequence number and its event |
| `AgentConfig.NormalizeScopes` | core/internal/agent/service.go:1772-1787 | the loop fails exactly on an unsupported scope and otherwise returns the given scopes once each, ascending |
| `AgentConfig.NormalizationIsIdempotent` | core/internal/agent/service.go:1325-1428 | what normalization accepts, it accepts again and leaves as it is |
| `AgentConfig.ProfileIsIdempotent` | core/internal/agent/service.go:1325-1328 | the same for name, handle and kind |
| `AgentConfig.PrintedAmountIsAccepted` | core/internal/agent/service.go:1365-1373 | a cost limit as the database prints it is accepted and means the same amount |
| `AgentConfig.RowStaysNormal` | core/internal/agent/service.go:1516-1538 | a normalized configuration that went through a draft row is still normalized and means the same |
| `Versions.NormalizationIsLawful` | core/internal/agent/service.go:1325-1428 | normalization satisfies everything the version machine needs of it |
| `Versions.ReachableStatesAreConsistent` | core/internal/agent/service.go:1554-1639 | in every reachable state: versions are exactly 1..published, a draft is numbered next, the live row is the stored configuration of the published version, and every unrevoked key is within the live scopes |
| `Versions.VersionsAreImmutable` | core/internal/agent/service.go:1632-1634 | recorded versions never change and the published version never goes back |
| `Versions.RollbackReproduces` | core/internal/agent/service.go:913-970 | rolling back to a version without a connection always prepares it, and publishing makes exactly its configuration and memberships live again when the agent is ready, and changes nothing otherwise |
| `Versions.RollbackFollowsConnection` | core/internal/agent/service.go:1226-1253 | with a connection, a rollback is prepared exactly when the version is still accepted and the connection exists, and publishing then records and makes live what the connection says now, exactly when the agent is ready for it |
| `Versions.RollbackReproducesExactlyWhen` | core/internal/agent/service.go:913-970 | with a connection, rollback and publication reproduce the version if and only if it is still accepted, the agent is ready, and the connection exists and agrees with what was recorded |
| `Versions.ChangedConnectionIsPublished` | core/internal/agent/service.go:1226-1253 | a reachable run: the connection changes its provider, and the version rolled back to is published with the new one |
| `VersionService.AgentStore.PublishDraft` | core/internal/agent/service.go:1554-1639 | the statements of a publication change everything together or nothing |
| `VersionService.AgentStore.Update` | core/internal/agent/service.go:693-778 | succeeds exactly when the profile and the configuration are accepted, the chats exist and, if it enables the agent, the draft can be published; otherwise nothing changes |
| `VersionService.AgentStore.Publish` | core/internal/agent/service.go:780-823 | publishes the draft as the next version, or changes nothing |
| `VersionService.AgentStore.Rollback` | core/internal/agent/service.go:913-970 | succeeds exactly when the version can be prepared, always for a recorded version without a connection, and changes only the draft |
| `VersionService.AgentStore.CreateKey` | core/internal/agent/service.go:1055-1113 | succeeds exactly when the scopes are within the live ones, also for a deleted agent |
| `Confirmations.HandlerRunsAtMostOnce` | core/internal/agenttool/executor.go:331-489 | over every interleaving of requests, decisions, expiry, runs, records, crashes and agent deletions, at most one handler run per run and tool call |
| `Confirmations.HandlerRunsWhatWasApproved` | core/internal/agenttool/executor.go:410-471 | every handler run was approved by someone, with exactly the tool and the arguments that ran |
| `Confirmations.HandlersArePermitted` | core/internal/agenttool/executor.go:459-467 | every handler run was of a registered tool with the scope the request named and arguments its schema accepts |
| `Confirmations.OnlyDecisionApproves` | core/internal/agenttool/executor.go:410-446 | a row becomes approved exactly by an approving decision on a pending, unexpired row of an agent that exists |
| `Confirmations.RowsOnlyMoveForward` | core/internal/agenttool/executor.go:384-489 | what a row is about never changes, its status only moves forward, final statuses are final |
| `Confirmations.AbandonedApprovalStays` | core/internal/agenttool/executor.go:473-489 | an approval that no process works on stays approved for ever |
| `Confirmations.ApprovalCanEndExactlyWhen` | core/internal/agenttool/executor.go:447-489 | an approved row can still end completed or failed if and only if a process is at work on it |
| `Confirmations.CrashAbandonsApproval` | core/internal/agenttool/executor.go:447-489 | a request, an approval and a crash leave such a row without an end, whatever happens next |
| `ConfirmationService.ToolExecutor.RequestConfirmation` | core/internal/agenttool/executor.go:331-371 | succeeds exactly for a call without a row or with one that is about the same and still pending and unexpired; a repeated request gets that row, and every other one is refused and leaves no row |
| `ConfirmationService.ToolExecutor.ListConfirmations` | core/internal/agenttool/executor.go:373-408 | listing expires what is due first and returns the 200 latest requests of a status, or all when there are fewer |
| `ConfirmationService.ToolExecutor.Resolve` | core/internal/agenttool/executor.go:410-446 | the decision transaction: exactly when it approves, when it denies, and when there is nothing to decide |
| `ConfirmationService.ToolExecutor.Execute` | core/internal/agenttool/executor.go:459-470 | the tool runs only if it is registered, still allowed and its arguments are valid |
| `ConfirmationService.ToolExecutor.FinishConfirmation` | core/internal/agenttool/executor.go:473-489 | records the outcome of an approved row once |
| `ConfirmationService.ToolExecutor.DecideConfirmation` | core/internal/agenttool/executor.go:410-471 | with nothing in between, an approval of a pending, unexpired row always ends, completed exactly if the tool may run, is started and succeeds; the handler runs exactly when it may and is started; the rows are those of decision, run and record |
| `ConfirmationService.ToolExecutor.DeleteAgent` | core/internal/agent/service.go:1025 | pending confirmations of the agent are denied |
| `Streaming.PointsAreApart` | apps/agent-runtime/src/runtime.ts:567-584 | iterating a text by code points loses nothing and never leaves a surrogate pair apart |
| `Streaming.ApartReadsBack` | apps/agent-runtime/src/runtime.ts:572-581 | writing consecutive code points one after the other and reading them back gives the same code points |
| `Streaming.SplitStreamingDelta` | apps/agent-runtime/src/runtime.ts:567-584 | the parts concatenate to the text, cut no code point, are not empty and take at most 8192 bytes |
| `Streaming.EmitParts` | apps/agent-runtime/src/runtime.ts:286-298 | one message per part, numbered consecutively, together the flushed text |
| `Streaming.AgentStream.Push` | apps/agent-runtime/src/runtime.ts:535-543 | a delta is added to what will be shown; the timer runs exactly while something under the limit is buffered |
| `Streaming.AgentStream.Fire` | apps/agent-runtime/src/runtime.ts:542 | the timer changes nothing about what will be shown |
| `Streaming.AgentStream.Flush` | apps/agent-runtime/src/runtime.ts:549-556 | flushing empties the buffer and stops the timer without changing what is shown |
| `Streaming.AgentStream.EmitReset` | apps/agent-runtime/src/runtime.ts:281 | a reset starts a new piece under the next index |
| `ProviderLoop.RunStream` | apps/agent-runtime/src/runtime.ts:299-324 | for every provider behaviour and timer firing, a stream shows exactly the provider's text, even when it breaks |
| `ProviderLoop.CallProvider` | apps/agent-runtime/src/runtime.ts:281-340 | one round up to its decision: error, answer, limit or tools |
| `ProviderLoop.RunProviderLoop` | apps/agent-runtime/src/runtime.ts:250-373 | at most max_tool_iterations + 1 provider calls; the text between resets, the conversation, the outcome and the number of tool calls are exactly those of the calls made |
| `ProviderLoop.Execute` | apps/agent-runtime/src/runtime.ts:110-205 | one run around the loop: whatever fails, the stream is numbered without gaps, shows exactly the texts of the calls made and is ended, twice only when a published run cannot be completed; the run completes exactly when every part succeeds, and an aborted signal replaces every error code |
| `ProviderLoop.RunTools` | apps/agent-runtime/src/runtime.ts:341-371 | the assistant message and one result per call |
| `ProviderLoop.RoundsArePaired` | apps/agent-runtime/src/runtime.ts:341-371 | every assistant message with tool calls is followed by exactly one result per call, in order |
| `Session.Coordinator.Receive` | apps/web/src/session.ts:72-80 | a token message is what the machine's tab receives, a logout only clears the tokens |
| `Session.Coordinator.Reuse` | apps/web/src/session.ts:56-57 | the decision is the machine's check: in a reachable state a request is unnecessary exactly when newer tokens than the call observed were issued, and then the newest are returned |
| `Session.Coordinator.GuardedRefresh` | apps/web/src/session.ts:50-66 | the guarded section does to its tab and its call what the machine's steps do, with a request exactly when the observed revision is still the newest; a rejected request publishes nothing and fails its call |
| `Session.OneRequestPerRevision` | apps/web/src/session.ts:50-66 | calls that observed the same revision cause at most one answered server request; every other request for it was rejected or is the one open request, and none is open once one has been answered |
| `Session.ReturnedMeansRequested` | apps/web/src/session.ts:50-66 | as soon as one of them has returned there was one request more than were rejected, so exactly one if and only if none was rejected |
| `Session.RejectedRequestIsRepeated` | apps/web/src/session.ts:50-66 | two calls, the first rejected: two requests for one revision |
| `Session.ReturnsItsRequestExactlyWhen` | apps/web/src/session.ts:50-66 | a call returns the tokens of the request for the revision it observed if and only if that revision was the newest when it began, or one newer was out and no call ahead that had observed that one obtained tokens |
| `Session.SameRevisionSameTokens` | apps/web/src/session.ts:50-66 | calls that observed the same revision return the same tokens exactly when the same were due to them, as they are to all that observed it while it was the newest |
| `Session.StaleCallGetsLaterTokens` | apps/web/src/session.ts:51 | two tabs, with everything posted delivered before every check: equal observations, different tokens |

## Left out

- Length limits that only table constraints have (an endpoint of 2048 characters), and a key's name, rate and expiry, which are checked before any row is read.
- The ORDER BY and LIMIT of the claim query: any order and number of candidates is allowed, which includes the source's.
- Overflow of `numeric(20,8)` in the run service's usage sums, currencies and price sources beyond the fields used; audit rows, logging, display fields.
- Client-supplied idempotency keys of runs (`client_run_id`), the per-minute provider rate as anything more than a count of recent calls, MCP tool calls, runtime checkpoints.
- HTTP, WebSocket, Redis wake-ups, River jobs, object storage, image/PDF/DOCX decoding: their results are parameters of the steps.
- Encryption, hashing, key generation, JWT: identifiers, tokens and digests are fresh values.
- The file cleanup worker, except that an expired upload can be discarded.
- UTF-8 decoding, JSON parsing, URL and handle syntax, regular expressions and Unicode case folding are function parameters; section 9.2.6 of the HTML Living Standard also knows comments, event names, ids, retry and lone CR line ends, which the source does not handle, and removes one space where the source trims all.
- Daylight saving and time-zone tables: a zone is a fixed offset.
- That a posted message records the chain depth of its run is an assumption on the message service, which is not part of this model.
- Identifiers are compared as numbers in the order of their text, so UUID syntax is not modelled.
- Pruning while events are being appended: appended events lie above the watermark that the sweep read, so they are never candidates.
- Network errors of a provider stream are the `error` of a turn; floating-point cost addition in the runtime is not modelled.
- Token refresh without `navigator.locks`, and logins, logouts and closing tabs between refreshes, are not considered in the multi-tab lemmas.
