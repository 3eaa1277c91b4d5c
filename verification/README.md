# SunPilot verification

A model, in Dafny 4.11, of the algorithms and protocols at the core of SunPilot's agent runtime, with
proofs of what they promise. `dafny verify dfyconfig.toml` checks the whole project.

SunPilot is a daemon that runs agents: it plans and executes tools under approval, streams messages to
clients, persists events, and recovers after restarts. Code that changes fields step by step is modelled
as a class whose methods are proved against a specification function; the promises are then theorems about
that specification, over all inputs, all runs or all interleavings. Code made of expressions is modelled
as functions.

| files | what they model |
|---|---|
| PathPlanner | the route planner: graph building, shortest-path search, reconstruction |
| Utf16, JsonString, StableValue, KeyOrder, ToolSafety | the canonical text behind approval matching, and the permission gate |
| SseStream, StreamChat | incremental framing of event streams and the reading of chat streams |
| OutboxProtocol, OutboxSafety, OutboxVisibility, OutboxDelivery, OutboxLayer | the event outbox as steps with faults and crashes, its safety, what live listeners see, what is delivered in the end, and the code that takes the steps |
| RunLifecycle, RecoveryProtocol, Recovery | run statuses, execution leases, suspension, crash and restart recovery |
| MessageParts, MessageSync, MessageText, MessageDrift, MessageStream | the event-sourced message stream, the replica a client folds, and when the two part |
| KeysetPaging | cursor paging and the budgeted scan that pages through summaries |
| RateLimiter, SlotPool, TaskActions, TaskExecutor | the sliding window, the execution slots, the task executor |
| ToolBatches, ToolRetries, ExecutionOrchestrator | grouping, chunking and retrying tool calls |
| MemoryQuery, EmbeddingCache, TokenBudget, ArtifactVersions | query building, the embedding cache, token budgeting, version search |
| ModelRouter, DeltaThrottle | falling back between providers, throttling deltas |

Several promises turned out to hold only under a condition. Each is then proved as an if-and-only-if:

- approval texts forget key order: the key comparison is a strict total order (`KeyOrder`);
- a client goes on showing the server's parts: it is closed, or remembers no delta index that is still to come
  (`MessageSync`); after completion in content too: no text still being written has grown since (`MessageDrift`);
- live listeners see an event at most once: it is not a lifecycle start of a run (`OutboxVisibility`);
- the limiter decides as the full history does: no clock reading falls back into a window already left; it keeps
  every window within the limit: none returns to within a window of an earlier reading left behind (`RateLimiter`);
- a finished task has succeeded: the writes behind its last action took effect; a repeated report is ignored: the
  first one wrote its own action or found none in flight (`TaskActions`);
- cursor paging is complete: the page size is within the repository's bounds; a sweep of the stale scanner is
  complete: the page size divides the budget (`KeysetPaging`);
- the slot limit holds: no arrival overtakes a woken task (`SlotPool`);
- memory search never exposes a row: the list of scopes is not empty (`MemoryQuery`);
- a stream is never spliced: the caller does not throw into its first delta, or the signal is aborted by then
  (`ModelRouter`). A `for await` loop that is left early returns the stream and does not throw into it, so only an
  explicit `throw()` meets the failing case;
- a waiting run has always been asked about: approvals are requested in one transaction; a run whose approval was
  so requested survives a restart: an approval is still unanswered (`RecoveryProtocol`).

Where the code and its comments disagree the model follows the code: the limiter's `check` does not delete empty buckets
(`packages/daemon/src/server.ts:125`), and the stale scanner takes the scope of a summary for its conversation
although its query, which names no subject, lists only global summaries
(`packages/daemon/src/stale-detection-worker.ts:65-83`).

## Model

| member | source | states |
|---|---|---|
| PathPlanner.PlanRoute | packages/platform/src/digital-world/path-planner.ts:3-85 | The first bad edge, else an unknown source, else an unknown target is reported; otherwise the answer is a walk from source to target along edges or reversed bidirectional edges whose total is at most that of every other walk, and no route is answered exactly when no walk exists |
| PathPlanner.BuildGraph | packages/platform/src/digital-world/path-planner.ts:9-29 | The adjacency lists hold exactly the hops the edges allow, in both directions for bidirectional ones, and the known nodes are exactly the endpoints of edges |
| PathPlanner.PickNearest | packages/platform/src/digital-world/path-planner.ts:54-61 | The scan finds the unvisited node of least finite distance, the first in map order among equals, or nothing when all that is unvisited is unreached |
| PathPlanner.Search | packages/platform/src/digital-world/path-planner.ts:43-74 | The main loop ends, and then every recorded distance is the length of a walk that the links to earlier settled nodes spell, every hop out of a settled node has been relaxed, and the target has its least distance or no walk reaches it |
| PathPlanner.WalksCostAtLeast | packages/platform/src/digital-world/path-planner.ts:53-74 | A walk of any shape out of the source either ends in a settled node that it does not reach more cheaply, or has already cost at least the current minimum |
| PathPlanner.TargetIsCheapest | packages/platform/src/digital-world/path-planner.ts:62-76 | Stopping at the target early is safe: its distance is minimal over all walks |
| PathPlanner.NoWalkWhenExhausted | packages/platform/src/digital-world/path-planner.ts:62-76 | When nothing reachable is left unvisited and the target has no distance, no walk reaches it |
| PathPlanner.Reconstruct | packages/platform/src/digital-world/path-planner.ts:78-84 | Following the predecessors stops, also with edges of length zero, and yields a walk of the recorded length |
| StableValue.StableIsInjective | packages/core/src/agent-kernel/execution/tool-safety-boundary.ts:372-381 | Two JSON values whose printed texts open the same text, each followed by a delimiter, have equal structure up to key order, whatever the key comparison does |
| KeyOrder.KeyOrderIsForgotten | packages/core/src/agent-kernel/execution/tool-safety-boundary.ts:374-379 | With a strict total order on keys, values of equal structure up to key order print alike, however deeply objects are nested |
| KeyOrder.OrderInsensitiveIff | packages/core/src/agent-kernel/execution/tool-safety-boundary.ts:375-377 | Printing forgets key order for all values if and only if the key comparison is a strict total order; a comparison that ties two keys breaks it |
| JsonString.ReadEscaped | packages/core/src/agent-kernel/execution/tool-safety-boundary.ts:377-380 | A quoted string (section 7 of RFC 8259, escaping as JSON.stringify does, lone surrogates included) reads back as the string it came from and ends right there |
| JsonString.QuoteIsPrefixFree | packages/core/src/agent-kernel/execution/tool-safety-boundary.ts:377-380 | No quoted string is a proper beginning of another |
| ToolSafety.ApprovalMatchesIff | packages/core/src/agent-kernel/execution/tool-safety-boundary.ts:360-370 | An approval matches a call exactly when call id, skill and argument structure agree |
| ToolSafety.ApprovalNeverStretches | packages/core/src/agent-kernel/execution/tool-safety-boundary.ts:360-370 | Even with a key comparison that is no order, a match never covers different arguments |
| ToolSafety.Boundary.CheckScopedPermissions | packages/core/src/agent-kernel/execution/tool-safety-boundary.ts:227-286 | A call is admitted exactly when its requested permissions can be covered one after the other: by an approval that matches it, or without one by the manager's grants as long as no fresh approval is required and nothing needs a new one; what the run then holds is where that leads, a denial changes nothing, and other runs are not touched |
| ToolSafety.AdmittedIff | packages/core/src/agent-kernel/execution/tool-safety-boundary.ts:236-284 | Working through the permissions is the only way they can be covered: each grant takes the place of the one with its key or the last place, and the first permission that cannot be covered denies the call |
| ToolSafety.AdmissionOnlyAdds | packages/core/src/agent-kernel/execution/tool-safety-boundary.ts:236-284 | Admitting a call never takes a grant away |
| ToolSafety.ApprovalGrantsEverything | packages/core/src/agent-kernel/execution/tool-safety-boundary.ts:230-260 | With a matching approval nothing is refused, and afterwards every requested permission is held for exactly that call on the approver's authority |
| ToolSafety.Boundary.ClearRun | packages/core/src/agent-kernel/execution/tool-safety-boundary.ts:176-178 | Clearing a run drops its grants and no others |
| SseStream.ParseStream | packages/core/src/llm/openai-compatible.provider.ts:191-217 | For every cutting of a text into chunks that stays under the buffer limit the payloads yielded are those of the one-shot line filter on the whole text; after an overflow they are a prefix of those |
| SseStream.Drain | packages/core/src/llm/openai-compatible.provider.ts:206-210 | What is yielded and what is kept after a chunk: the payloads of the completed events, and the text behind the last event break |
| SseStream.DataSplitsAtBreak | packages/core/src/llm/openai-compatible.provider.ts:206-226 | Filtering may be done on each side of an event break separately, also when a carriage return belongs to the break |
| SseStream.PayloadIff | packages/core/src/llm/openai-compatible.provider.ts:219-226 | A line has a payload exactly when it is the mark and a text that is not blank, and the payload is that text with the spaces around it left out |
| SseStream.RemainderIsLocal | packages/core/src/llm/openai-compatible.provider.ts:206-207 | Text behind the last break depends only on what is pending and what follows, not on the events before |
| SseStream.CompletedStays | packages/core/src/llm/openai-compatible.provider.ts:206-213 | Whatever text follows, the events completed so far are the first of those completed later, unchanged, and their payloads are the first of the whole text's |
| SseStream.SplitIsLocal | packages/core/src/llm/openai-compatible.provider.ts:206-207 | More text is split behind the completed events: splitting the whole is the completed events and then the split of what is pending and new |
| StreamChat.Chat | packages/core/src/llm/openai-compatible.provider.ts:130-188 | The deltas and the ending of a chat stream do not depend on how the network cut the text; an overflow can only cut them short; and the answer is what the ordinary chunks carry |
| StreamChat.ConsumeAnswers | packages/core/src/llm/openai-compatible.provider.ts:130-188 | The deltas are the choices of the ordinary chunks before the end, in order, without exactly those that carry no text, no tool calls and no finish reason, so that all texts, tool calls and finish reasons arrive; malformed JSON, an error payload and a missing end each give their own error |
| StreamChat.Read | packages/core/src/llm/openai-compatible.provider.ts:130-188 | The loop stops at the end marker, at malformed JSON and at an error payload, and answers with what the chunks before carry |
| StreamChat.CompletesIff | packages/core/src/llm/openai-compatible.provider.ts:131-188 | A stream completes exactly when ordinary chunks lead to the end marker, or reach the end of the text with a finish reason among them |
| OutboxSafety.StoredIsNeverLost | packages/daemon/src/factories/persistence-factory.ts:80-137 | In every run with failing and ambiguous storage calls, crashes and restarts, an event whose outbox insert has committed is in the outbox or in the log |
| OutboxSafety.LogIsUniqueAndGenuine | packages/storage/src/postgres/postgres.event.repository.ts:8-25 | The log never holds an id twice and every row is the event emitted under that id |
| OutboxSafety.PublishedAtMostOnce | packages/daemon/src/factories/persistence-factory.ts:86-93 | The persistence path publishes an event at most once and only after it is logged; together with forwarding an event outside the forwarded types is seen live at most once |
| OutboxSafety.NothingVanishes | packages/daemon/src/factories/persistence-factory.ts:80-176 | A replayable event is logged, in the outbox, still held in memory, or was in memory at a crash |
| OutboxSafety.CrashSparesStored | packages/daemon/src/factories/persistence-factory.ts:110-148 | A crash at any point costs only events whose outbox insert never committed |
| OutboxDelivery.StoredIsNotLost | packages/daemon/src/factories/persistence-factory.ts:80-148 | In no run, however many crashes it has, is an event lost whose outbox insert has committed |
| OutboxDelivery.DeliveredIff | packages/daemon/src/factories/persistence-factory.ts:80-176 | In a run without a crash, whatever the storage does, an ordinary event of a run has been published live exactly when memory no longer holds it |
| OutboxDelivery.RestIsComplete | packages/daemon/src/factories/persistence-factory.ts:80-176 | When such a run comes to rest the outbox is empty, the log holds exactly the persistable events that were accepted, and the ordinary ones of a run, and no others of that kind, have been published |
| OutboxSafety.LogGrows | packages/storage/src/postgres/postgres.event.repository.ts:8-25 | No continuation of a run removes or changes a row of the log |
| OutboxSafety.RunKeepsInv | packages/daemon/src/factories/persistence-factory.ts:80-176 | The invariant behind these results holds after every finite sequence of inputs, whichever storage call fails, commits and then fails, or is cut off by a crash |
| OutboxSafety.LifecycleSeenTwice | packages/daemon/src/factories/persistence-factory.ts:59-63 | A run in which a message start is forwarded at once and published again by the recovery flush |
| OutboxVisibility.SeenAtMostOnceIff | packages/daemon/src/factories/persistence-factory.ts:157-176 | For every event: in all runs that accept it, with any faults and crashes, live listeners see its id at most once, if and only if it is not a lifecycle start that belongs to a run |
| OutboxVisibility.ForwardedAreTheArrivals | packages/daemon/src/factories/persistence-factory.ts:157-176 | In every run what has been forwarded is exactly the emitted events that are not ordinary, each once and in the order of their arrival, and the accepted events are exactly the emitted ones |
| OutboxVisibility.TransientStaysTransient | packages/daemon/src/factories/persistence-factory.ts:157-168 | A delta or an event that was persisted before is forwarded and is never in the queue, in a table, on the failure list or published |
| OutboxVisibility.RunKeepsBound | packages/daemon/src/factories/persistence-factory.ts:80-84 | In every run the tables, the failure list and the running task hold only events that belong to a run |
| OutboxLayer.Layer.Receive | packages/daemon/src/factories/persistence-factory.ts:157-176 | An event of another kind than ordinary is forwarded at once; a lifecycle start and an ordinary event are queued, the latter to be forwarded once it is persisted; this is the protocol step |
| OutboxLayer.Layer.Tick | packages/daemon/src/factories/persistence-factory.ts:142-148 | The timer queues one more flush and does nothing else |
| OutboxLayer.Layer.Attempt | packages/daemon/src/factories/persistence-factory.ts:86-93 | One attempt is three storage calls in order and then the publication; its effect on tables, memory and live bus is a run of protocol steps |
| OutboxLayer.Layer.PersistWithRetry | packages/daemon/src/factories/persistence-factory.ts:80-108 | At most three attempts, then the event is on the failure list; the whole is a run of protocol steps |
| OutboxLayer.Layer.Replay | packages/daemon/src/factories/persistence-factory.ts:119-136 | Replaying one event of a batch is append, delete, publish; a failure puts it and the rest of the batch back |
| OutboxLayer.Layer.FlushFailedEvents | packages/daemon/src/factories/persistence-factory.ts:110-137 | A flush over any faults is a run of protocol steps, so every safety result above applies to the code as it loops |
| OutboxLayer.Layer.ServeNext | packages/daemon/src/factories/persistence-factory.ts:74-78 | The serial queue runs its oldest task to the end before the next |
| OutboxLayer.Collect | packages/daemon/src/factories/persistence-factory.ts:113-117 | The batch holds every id once, ids in the order first met, and for each id the event last met |
| OutboxLayer.FlushWithoutFaults | packages/daemon/src/factories/persistence-factory.ts:110-137 | A flush whose storage calls all work empties the failure list, and the outbox too as long as it fits one page |
| OutboxLayer.EventTables.Append | packages/storage/src/postgres/postgres.event.repository.ts:8-25 | A call that commits adds at most one row, at the end: the earlier rows stay as they were, ids stay distinct, and an id that is logged already changes nothing |
| OutboxLayer.EventTables.EnqueueOutbox | packages/storage/src/postgres/postgres.event.repository.ts:46-53 | A call that commits adds at most one row, at the end: the earlier rows stay as they were, ids stay distinct, and an id that is queued already changes nothing |
| OutboxLayer.EventTables.DeleteOutbox | packages/storage/src/postgres/postgres.event.repository.ts:65-70 | A call that commits leaves no row of the id; of a table with distinct ids it takes that one row out and leaves all others in their order |
| OutboxLayer.EventTables.ListOutbox | packages/storage/src/postgres/postgres.event.repository.ts:55-63 | The rows listed are the oldest ones, all of them up to the limit the flush asks for |
| RecoveryProtocol.SuspendedRunsSurvive | packages/core/src/agent-kernel/agent-loop-engine.ts:167-184 | Stop the process after any steps of any executors and restart it: a run suspended for the user is unchanged and its checkpoint is one its continuation accepts; every waiting run has its own checkpoint; none is left created or running |
| RecoveryProtocol.PlayIsGood | packages/core/src/agent-kernel/agent-loop-engine/approval-continuation.ts:305-341 | In every run with crashes and restarts stored checkpoints belong to their run, a run waits only after its checkpoint was saved, and a run waiting for a transactionally requested approval has one |
| RecoveryProtocol.StepsAreLegal | packages/core/src/agent-kernel/persistence/repository-run-state-manager.ts:72-149 | No step of any interleaving and no restart changes a status illegally |
| RecoveryProtocol.RecoveryLeavesNothingUnfinished | packages/daemon/src/recovery.ts:34-117 | Over any tables recovery leaves no run created or running, keeps a run waiting for approval only with a pending approval and one waiting for the user only with a checkpoint that parses, and moves legally |
| RecoveryProtocol.RestartIs | packages/daemon/src/recovery.ts:34-117 | Told about the tables before and after: created runs are failed, running ones interrupted, or failed where the interruption is not written, waiting ones kept exactly with a pending approval or a checkpoint that parses and failed otherwise, and all others unchanged |
| RecoveryProtocol.RecoveryIsIdempotent | packages/daemon/src/recovery.ts:34-117 | A second restart changes nothing more, whenever it comes and whatever fails in it |
| RecoveryProtocol.StoppedRecoveries | packages/daemon/src/recovery.ts:34-117 | However often the process dies in the middle of its startup recovery, at whichever runs, the recovery that gets through ends where a single one would have, up to the times of the writes |
| RecoveryProtocol.WaitingForApprovalFailsIff | packages/daemon/src/recovery.ts:61-99 | With either way of requesting approvals a restart fails a run waiting for one exactly when none of its approvals is pending |
| RecoveryProtocol.ApprovalRunFailsIff | packages/core/src/agent-kernel/persistence/repository-approval-request-service.ts:35-99 | With the transactional request service a restart fails a run waiting for approval exactly when its approvals have all been answered and no continuation has taken it up |
| RecoveryProtocol.AlwaysAskedIff | packages/core/src/agent-kernel/agent-loop-engine/approval-flow.ts:148-163 | In every play each run waiting for approval has had one requested, if and only if requests are transactional |
| RecoveryProtocol.AnsweredRunIsFailed | packages/daemon/src/recovery.ts:61-99 | That case is reachable: an approval answered just before the crash |
| RecoveryProtocol.UnaskedRunIsFailed | packages/core/src/agent-kernel/agent-loop-engine/approval-flow.ts:148-163 | Without the service, a crash between the status change and the creation of the approval leaves a suspended run that recovery fails |
| RecoveryProtocol.KeptButStuckIff | packages/core/src/agent-kernel/agent-loop-engine/approval-continuation.ts:544-568 | Over foreign tables a waiting run is kept by recovery and still not resumable exactly when its checkpoint names another run or conversation |
| RecoveryProtocol.InterruptedResumesIff | packages/core/src/agent-kernel/agent-loop-engine/approval-continuation.ts:262-303 | An interrupted run can be taken up again exactly when it had saved a checkpoint before the crash |
| RecoveryProtocol.LeaseIs | packages/core/src/agent-kernel/agent-loop-engine/approval-continuation.ts:544-568 | A run is taken up exactly if it is new, or rests and its checkpoint parses and names this run and conversation |
| RecoveryProtocol.EndsAre | packages/core/src/agent-kernel/persistence/repository-run-state-manager.ts:72-149 | An executor that completes, fails or gives up writes that status if it is a legal move, or nothing, and lets go of the run |
| RecoveryProtocol.WaitIs | packages/core/src/agent-kernel/agent-loop-engine/approval-continuation.ts:305-341 | A run is left waiting for the user only after its checkpoint was saved, and then it is |
| RecoveryProtocol.RequestIs | packages/core/src/agent-kernel/persistence/repository-approval-request-service.ts:35-99 | A request for approval makes the run wait and adds one pending approval of it, in one step or in two |
| RecoveryProtocol.ExpiryIs | packages/core/src/agent-kernel/persistence/repository-approval-expiry-service.ts:52-74 | Expiring an approval cancels the run that waits for it and touches no other |
| Recovery.Database.RecoverAgentRuntimeRuns | packages/daemon/src/recovery.ts:20-141 | The four loops leave every run as a restart must, by its status before; the report lists every unfinished run in scan order, and its failed and interrupted runs are exactly those that went over to that status, each once |
| Recovery.SnapshotIs | packages/daemon/src/recovery.ts:61-80 | The approvals announced again for a run are its pending ones, newest first, as many as one page holds |
| Recovery.Database.FailCreated | packages/daemon/src/recovery.ts:34-46 | Exactly the created runs are failed, and all of them are reported as failed |
| Recovery.Database.InterruptRunning | packages/daemon/src/recovery.ts:48-59 | Running runs are interrupted, and failed exactly if the interruption does not commit |
| Recovery.Database.AnnounceApprovals | packages/daemon/src/recovery.ts:61-99 | A run waiting for approval is kept, and its pending approvals announced, exactly if it has one; otherwise it is failed |
| Recovery.Database.KeepWaitingUsers | packages/daemon/src/recovery.ts:101-117 | A run waiting for the user is kept exactly if its checkpoint parses |
| Recovery.Database.MarkStatus | packages/core/src/agent-kernel/persistence/repository-run-state-manager.ts:72-149 | A legal move is written; same and terminal statuses are left alone; anything else throws and writes nothing |
| Recovery.Database.ListAllRuns | packages/daemon/src/recovery.ts:218-233 | Pages of 200 concatenate to all runs of the status, most recently updated first |
| RunLifecycle.LeasesAreSeparated | packages/core/src/agent-kernel/run-state-manager.ts:217-241 | Over any interleaving of coordinators, between two leases of a run somebody has taken it out of running, legally and on record |
| RunLifecycle.TerminalIsForever | packages/core/src/agent-kernel/run-state-manager.ts:109-207 | Once a run is terminal no sequence of commands changes its status |
| RunLifecycle.HistoryIsChain | packages/core/src/agent-kernel/run-state-manager.ts:92-282 | For every run the recorded history is a gap-free chain of legal moves from created to its current status |
| RunLifecycle.RetainedIsSuffix | packages/core/src/agent-kernel/run-state-manager.ts:262-306 | What the capped history keeps of a run is a suffix of its chain, each entry starting where the one before ended |
| RunLifecycle.GrantsTwiceIff | packages/core/src/agent-kernel/run-state-manager.ts:217-241 | The manager can grant the same lease twice in a row exactly when the caller expects a running run |
| RunStateManager.InMemoryRunStateManager.MarkStatus | packages/core/src/agent-kernel/run-state-manager.ts:109-158 | A legal move is written with the status before it and put on record; the same and a terminal status are answered as they are, an illegal move is a conflict and an unknown run not found, and then nothing changes |
| RunStateManager.InMemoryRunStateManager.FailRun | packages/core/src/agent-kernel/run-state-manager.ts:160-207 | Failing respects the table of legal moves and leaves terminal runs alone |
| RunStateManager.InMemoryRunStateManager.AcquireExecution | packages/core/src/agent-kernel/run-state-manager.ts:217-241 | The lease is granted exactly to a run in an expected status, which is then running and on record |
| RunStateManager.InMemoryRunStateManager.CreateRun | packages/core/src/agent-kernel/run-state-manager.ts:92-107 | A created run stands in created, with one entry of history |
| RunStateManager.InMemoryRunStateManager.SaveTaskState | packages/core/src/agent-kernel/run-state-manager.ts:247-260 | Saving task state changes no status and no history |
| RunStateManager.InMemoryRunStateManager.GetHistory | packages/core/src/agent-kernel/run-state-manager.ts:284-306 | The retained entries of one run, in order |
| MessageSync.PlaySyncs | packages/core/src/agent-kernel/assistant-message-stream.ts:97-581 | For every sequence of operations a client that folds the emitted events over the same initial parts holds the server's parts up to artifacts of tool results and, after completion, the content of a text still being written |
| MessageSync.OpSyncs | packages/core/src/agent-kernel/assistant-message-stream.ts:97-581 | Every single operation keeps server and client in step |
| MessageSync.ExactAtCompletion | packages/core/src/agent-kernel/assistant-message-stream.ts:519-581 | At the completion event the client holds exactly the server's parts, artifacts included |
| MessageParts.MergeIs | packages/core/src/agent-kernel/assistant-message-stream.ts:663-685 | The content of a message is its final and prompt texts, or all its texts if none says what it is for, in order and with one line break between each two |
| MessageParts.ClosedAllClose | packages/core/src/agent-kernel/assistant-message-stream.ts:631-661 | At completion an open status ends completed or failed by the outcome, with its phase set or removed and its other metadata kept, an open tool use is interrupted, an open text is completed, and everything else stays as it is |
| MessageSync.SameUntilCompletion | packages/web/src/pages/ChatPage/hooks/chat/chat-state.ts:217-289 | Before completion the two lists differ in nothing but artifacts |
| MessageSync.FreshClientIsInSync | packages/web/src/pages/ChatPage/hooks/chat/chat-state.ts:217-289 | A client that starts from the hydrated parts is in step |
| MessageSync.DeltaAfterCompletionIsMissed | packages/core/src/agent-kernel/assistant-message-stream.ts:136-161 | A later difference in content: a delta appended after completion |
| MessageDrift.ContentAgreesIff | packages/web/src/pages/ChatPage/hooks/chat/chat-state.ts:243-268 | From a completion on, however the stream is used, server and client stay equal in content as well exactly when no text that is still being written has received anything but empty deltas since |
| MessageDrift.AfterCompletionAgreesIff | packages/core/src/agent-kernel/assistant-message-stream.ts:519-581 | The same from any state in step: complete, go on in any way, and the contents agree exactly under that condition |
| MessageSync.HydratedDeltaIsDropped | packages/web/src/pages/ChatPage/hooks/chat/chat-state.ts:243-268 | A client that remembers delta indices across a hydration drops the first deltas of the new stream, which counts from zero again |
| MessageSync.AlwaysAgreeIff | packages/web/src/pages/ChatPage/hooks/chat/chat-state.ts:243-268 | A client that shows the server's parts goes on showing them through every sequence of operations, exactly when it is closed or has seen no index that a text able to grow has still to give out |
| MessageText.PlayNarrates | packages/core/src/agent-kernel/assistant-message-stream.ts:136-161 | Every text is what it was hydrated with followed by its deltas, and each part's deltas are numbered 0, 1, 2, ... |
| MessageStream.AssistantMessageStream.StartTextPart | packages/core/src/agent-kernel/assistant-message-stream.ts:97-134 | An empty text with its role, being written, stands at the end and has been announced, the message itself before it if need be |
| MessageStream.AssistantMessageStream.Append | packages/core/src/agent-kernel/assistant-message-stream.ts:136-161 | The delta is appended to its part and emitted with the next index; an unknown part is an error |
| MessageStream.AssistantMessageStream.CompleteTextPart | packages/core/src/agent-kernel/assistant-message-stream.ts:163-192 | The part is completed and the update emitted |
| MessageStream.AssistantMessageStream.UpdateTextPartRole | packages/core/src/agent-kernel/assistant-message-stream.ts:194-216 | The role is set and the update emitted |
| MessageStream.AssistantMessageStream.ChangeStatus | packages/core/src/agent-kernel/assistant-message-stream.ts:296-338 | The status is patched, its metadata merged, its end stamped when it leaves running |
| MessageStream.AssistantMessageStream.ChangeToolUse | packages/core/src/agent-kernel/assistant-message-stream.ts:266-294 | The tool use is patched and the update emitted |
| MessageStream.AssistantMessageStream.AddToolResultPart | packages/core/src/agent-kernel/assistant-message-stream.ts:389-434 | The result is stored with its artifacts and announced without them |
| MessageStream.AssistantMessageStream.CompleteOpenParts | packages/core/src/agent-kernel/assistant-message-stream.ts:631-661 | Whatever is still open is closed according to the outcome, and nothing else changes |
| MessageStream.AssistantMessageStream.CompleteMessage | packages/core/src/agent-kernel/assistant-message-stream.ts:519-581 | A save that works closes the open parts, stores the merged content with them and announces both; a failed save restores the parts and announces nothing |
| KeysetPaging.ListAll | packages/daemon/src/recovery.ts:218-233 | For every table and page size the loop over the repository's clamped pages ends with what paging through the descending order yields |
| KeysetPaging.PagingIsCompleteIff | packages/daemon/src/recovery.ts:218-233 | The pages make up every table's rows, in descending (time, id) order and each once, exactly when the page size lies within the repository's bounds of 1 and 200 |
| KeysetPaging.Table.List | packages/storage/src/postgres/postgres.memory.repository.ts:141-171 | The rows behind the cursor in descending order, cut at the limit as it is given |
| KeysetPaging.Table.ListClamped | packages/storage/src/postgres/postgres.run.repository.ts:52-88 | The rows behind the cursor in descending order, cut at the limit after it has been brought within 1 and 200 |
| KeysetPaging.BehindRow | packages/storage/src/postgres/postgres.run.repository.ts:68-78 | What the cursor of the k-th row lets through is what stands behind it |
| KeysetPaging.OrderIsUnique | packages/storage/src/postgres/postgres.run.repository.ts:79-86 | There is one descending listing of a set of rows |
| KeysetPaging.StaleDetectionWorker.Scan | packages/daemon/src/stale-detection-worker.ts:57-150 | One scan looks at the next rows up to its budget, while its cursor moves by whole pages or is reset at the end; a second scan at the same time does nothing |
| KeysetPaging.ScanIsSweepStep | packages/daemon/src/stale-detection-worker.ts:57-150 | Consecutive scans make up one sweep |
| KeysetPaging.SweepsEverythingIff | packages/daemon/src/stale-detection-worker.ts:57-150 | A sweep looks at every row of every table, in order and once, exactly when the page size divides the budget |
| KeysetPaging.ShippedSweepIsComplete | packages/daemon/src/stale-detection-worker.ts:57-80 | The constants the worker ships with sweep everything |
| SlidingWindow.NeverDiffersIff | packages/daemon/src/server.ts:145-173 | Over any clock readings, for every limit and whoever asks or sweeps at each of them, all requests are decided as by the specification that remembers all accepted requests, if and only if no reading falls back into a window that an earlier one has left |
| SlidingWindow.DecidesAsFullHistory | packages/daemon/src/server.ts:145-173 | In particular under a clock that does not run backwards, wherever sweeps come in between |
| SlidingWindow.EveryWindowIsBoundedIff | packages/daemon/src/server.ts:145-173 | Over any clock readings, for every limit and whoever asks or sweeps at each of them, no half-open interval of one window's length holds more requests that the limiter itself let through for an address than the limit, if and only if no reading returns to within one window of an earlier one that has been left behind in between |
| SlidingWindow.EveryWindowIsBounded | packages/daemon/src/server.ts:145-161 | In particular under a clock that does not run backwards the requests let through stay within the limit in every such interval |
| SlidingWindow.LiveLogIsLog | packages/daemon/src/server.ts:145-173 | As long as no reading falls back into a window already left, the limiter lets through exactly what the full history would |
| SlidingWindow.FullHistoryIsBounded | packages/daemon/src/server.ts:145-161 | The rule applied to the full history keeps every window within the limit whatever the clock does |
| SlidingWindow.BackwardClockDiffers | packages/daemon/src/server.ts:145-173 | A clock that falls back far enough makes the two decide differently |
| RateLimiter.SlidingWindowRateLimiter.Check | packages/daemon/src/server.ts:145-161 | The decision and the new buckets |
| RateLimiter.SlidingWindowRateLimiter.Sweep | packages/daemon/src/server.ts:163-173 | Every bucket is trimmed, and dropped if nothing is left of it |
| SlidingWindow.SweptIs | packages/daemon/src/server.ts:163-173 | Of every bucket exactly the times inside the window are left, and an address without any is dropped |
| SlotPool.PoolIsGood | packages/skill-runner/src/runner.ts:700-710 | In every run the counter is the number of holders, waiting tasks come out in the order they went in, and nobody waits while fewer than the limit hold a slot or are about to |
| SlotPool.HoldersBoundedIff | packages/skill-runner/src/runner.ts:700-710 | The limit holds through a run, also right after woken tasks run on, exactly when no arrival passes the check between a wake and its resume |
| SlotPool.LoadBoundedIff | packages/skill-runner/src/runner.ts:700-710 | Holders and woken tasks stay within the limit under exactly the same condition |
| SlotPool.LimitCanBePassed | packages/skill-runner/src/runner.ts:700-710 | With one slot, two tasks can end up in it |
| SlotPool.StuckIffNoSlots | packages/skill-runner/src/runner.ts:700-710 | Tasks can wait for ever with nobody to wake them exactly when the pool has no slots |
| SkillRunner.SkillRunner.AcquireSlot | packages/skill-runner/src/runner.ts:700-705 | Up to its await the call either counts the task or queues it |
| SkillRunner.SkillRunner.RunOn | packages/skill-runner/src/runner.ts:702-704 | After its await the call counts the task without looking at the limit again |
| SkillRunner.SkillRunner.ReleaseSlot | packages/skill-runner/src/runner.ts:707-710 | The oldest waiting task is woken |
| TaskActions.RunIsGood | packages/platform/src/digital-world/task-executor.ts:40-141 | In every reachable world, whichever storage writes are rejected, each task has the shape completed*, at most one running or failed, pending*; a task has succeeded only if all its actions have completed; no agent run belongs to two actions |
| TaskActions.FinishedSucceedsIff | packages/platform/src/digital-world/task-executor.ts:127-136 | A task whose actions have all completed was finished by one event, and has succeeded exactly when the writes of that event behind the last action took effect |
| TaskActions.NothingPassesARunningRun | packages/platform/src/digital-world/task-executor.ts:88-92 | Behind an action that has not completed everything is pending and the task has not succeeded |
| TaskActions.RepeatedCompletionIsIgnoredIff | packages/platform/src/digital-world/task-executor.ts:312-434 | Once a started run has been reported, reports of it change nothing however the world goes on, exactly when the first one wrote its own action or found none in flight |
| TaskActions.EventAdvances | packages/platform/src/digital-world/task-executor.ts:175-306 | No event takes a task back: completed and failed actions keep everything they have |
| TaskActions.ExecutesInOrder | packages/platform/src/digital-world/task-executor.ts:77-125 | Rows complete one after the other up to the first that starts an agent run, which with an agent configured are exactly the work rows, or breaks; rows behind it are not touched |
| TaskActions.ReportIs | packages/platform/src/digital-world/task-executor.ts:312-434 | A failed agent run fails its action and breaks its task; after a success the action has completed and the rows behind it are executed |
| TaskActions.ExecutionIs | packages/platform/src/digital-world/task-executor.ts:77-136 | A prepared task is executed from its first row and has succeeded when all is done and written |
| TaskActions.TemplatesAreSensible | packages/platform/src/digital-world/task-executor.ts:6-12 | Every task with work in it wakes first, works where that is done, puts a video into the box and fetches it from there to publish it, goes home to sleep, and does exactly the work its name says |
| TaskActions.UntouchableIff | packages/storage/src/postgres/postgres.world-action.repository.ts:88-100 | A task that has been claimed is beyond change exactly when none of its actions is running with an agent run |
| TaskActions.FailedTaskCanBeTouchable | packages/platform/src/digital-world/task-executor.ts:99-125 | A failed task whose failure could not be written to the action still has a live run |
| TaskActions.ShapeIs | packages/platform/src/digital-world/task-executor.ts:40-141 | The two ways to state the shape agree |
| TaskExecutor.TaskExecutor.ExecuteTask | packages/platform/src/digital-world/task-executor.ts:40-141 | A queued task is claimed once, gets its rows and runs until an agent run, a failure or the end; it stays as it is where a write before, between or behind its actions is rejected or its being is missing |
| TaskExecutor.TaskExecutor.OnAgentRunCompleted | packages/platform/src/digital-world/task-executor.ts:312-434 | The action in flight is finished and the row is executed from the next one on, as far as the writes take effect; a run nobody has in flight changes nothing |
| TaskExecutor.TaskExecutor.ExecuteAction | packages/platform/src/digital-world/task-executor.ts:175-306 | One action as the execution of a row prescribes: completed, waiting for its run, or thrown |
| TaskExecutor.TaskExecutor.FindActionByRunId | packages/storage/src/postgres/postgres.world-action.repository.ts:88-100 | The lookup finds an action in flight for the run if there is one |
| ExecutionOrchestrator.Execute | packages/core/src/agent-kernel/execution/execution-orchestrator.ts:55-144 | The results are one summary for each call of the batches that were started before the signal was aborted, in the order of the plan |
| ExecutionOrchestrator.OneSummaryPerCall | packages/core/src/agent-kernel/execution/execution-orchestrator.ts:55-144 | A batch that is never aborted yields exactly one summary for every call; an aborted one yields those of the calls it got to; each summary carries its call's id and answer |
| ToolBatches.PlanKeepsOrder | packages/core/src/agent-kernel/execution/execution-orchestrator.ts:570-580 | The calls of every category run in the order in which they came |
| ToolBatches.PlanIsPermutation | packages/core/src/agent-kernel/execution/execution-orchestrator.ts:570-607 | Grouping and chunking lose no call and repeat none |
| ToolBatches.PlanRespectsCaps | packages/core/src/agent-kernel/execution/execution-orchestrator.ts:74-118 | What runs at the same time is of one category and within its concurrency cap |
| ToolBatches.CapIs | packages/core/src/agent-kernel/execution/execution-orchestrator.ts:586-599 | Eight calls that read files may run at a time, four that use the network or write artifacts, and everything else runs alone |
| ToolBatches.CapabilityIs | packages/core/src/agent-kernel/execution/execution-orchestrator.ts:586-590 | The capability of a skill is what stands behind its last colon |
| ExecutionOrchestrator.GroupByConcurrency | packages/core/src/agent-kernel/execution/execution-orchestrator.ts:570-580 | The categories in the order of their first calls, and with each its calls in order |
| ExecutionOrchestrator.ChunkArray | packages/core/src/agent-kernel/execution/execution-orchestrator.ts:601-607 | Consecutive chunks, full but for the last |
| ToolRetries.RetriesAreBounded | packages/core/src/agent-kernel/execution/execution-orchestrator.ts:292-372 | The tool is reached only after the record has been made and right after a gate that let it pass, asked anew after the wait for every repetition; the attempts are within the policy; a call that is neither idempotent nor free of effects reaches its tool at most once |
| ToolRetries.AnswerIs | packages/core/src/agent-kernel/execution/execution-orchestrator.ts:171-372 | The answer is a failure for a call that is not valid or not safe, a cancellation for a run that has lost its execution, and otherwise what the attempt says that ends it: the tool's status if it returns, a cancellation at a shut gate, and a failure else |
| ToolRetries.AtMostOnceIff | packages/core/src/agent-kernel/execution/execution-orchestrator.ts:320-337 | A call reaches its tool at most once in every world exactly when it is neither idempotent nor free of effects, or its policy forbids a repetition |
| ToolRetries.BoundIsReached | packages/core/src/agent-kernel/execution/execution-orchestrator.ts:320-337 | The bound on attempts is exact: one more than the retries the policy allows, two without a policy, and one for a call that may not be repeated |
| ExecutionOrchestrator.ExecuteWithRetry | packages/core/src/agent-kernel/execution/execution-orchestrator.ts:146-536 | The loop over attempts ends as the specification says, with the same order of gates and executions |
| MemoryQuery.WhereSelects | packages/storage/src/postgres/postgres.memory.repository.ts:430-516 | Under three-valued SQL the clauses with their bound values keep exactly the live rows that match the filters and are visible to the subjects asking |
| MemoryQuery.NeverExposesIff | packages/storage/src/postgres/postgres.memory.repository.ts:471-516 | A row the asker may not see is never selected, for every input except the one with an empty list of scopes |
| MemoryQuery.ScannerSeesOnlyGlobal | packages/daemon/src/stale-detection-worker.ts:65-69 | The stale scanner, which names no subject, lists only global summaries |
| MemoryRepository.BuildMemoryWhere | packages/storage/src/postgres/postgres.memory.repository.ts:430-469 | The clauses and values pushed, in their order |
| MemoryRepository.VisibleScopeClauses | packages/storage/src/postgres/postgres.memory.repository.ts:471-516 | One clause for each wanted scope, false for a subject that is absent |
| MemoryRepository.Search | packages/storage/src/postgres/postgres.memory.repository.ts:168-286 | For every combination of embedding, text, step and run each placeholder number refers to the value it is meant for, and the filter keeps the selected rows that match the text when there is no embedding |
| EmbeddingCache.CacheIsGood | packages/core/src/agent-kernel/context/llm-embedding-service.ts:217-236 | After any gets and sets the cache holds at most 1000 keys, each once, ordered by last read or first insertion, with the vectors last stored |
| EmbeddingCache.OnlyTheHeadIsEvicted | packages/core/src/agent-kernel/context/llm-embedding-service.ts:230-236 | A key leaves the cache exactly when it is at the head and a new key meets a full cache |
| EmbeddingCache.HitIsLastStored | packages/core/src/agent-kernel/context/llm-embedding-service.ts:217-225 | A hit returns the vector last stored for that text |
| EmbeddingService.LlmEmbeddingService.Embed | packages/core/src/agent-kernel/context/llm-embedding-service.ts:83-145 | A hit is the cached vector; a miss is the provider's answer, or the keyword vector when there is none, it fails, or it failed less than five minutes ago; the state of the provider follows |
| EmbeddingService.LlmEmbeddingService.EmbedBatch | packages/core/src/agent-kernel/context/llm-embedding-service.ts:147-200 | Every position is answered with a vector computed for its own text, with the stored one if it was cached, and with the provider's if it was asked for and answered |
| TokenBudgeter.Apply | packages/core/src/agent-kernel/context/context-budgeter.ts:27-121 | Nothing is lost, mandatory chunks are in and come first, the whole is within budget if they fit, the others are gone through in a preferred order and each is in exactly if there is room, and then no excluded chunk would still fit; if they do not fit nothing else is in |
| TokenBudget.CompressShortens | packages/core/src/agent-kernel/context/context-budgeter.ts:138-152 | Exactly the long messages of the conversation are cut, behind the last sentence end in reach that leaves more than half of the limit or else at the limit; neither length nor estimate grows |
| TokenBudget.SortIsPreferred | packages/core/src/agent-kernel/context/context-budgeter.ts:84-96 | Sources that are never trimmed come first, then those trimmed last, and within one rank the more urgent chunk; ties keep their order and no chunk is lost |
| TokenBudget.SortSpec | packages/core/src/agent-kernel/context/context-budgeter.ts:84-96 | The order is by trim rank and priority, and equal chunks keep theirs |
| TokenBudget.LeftOutIff | packages/core/src/agent-kernel/context/context-budgeter.ts:104-111 | A chunk is among the excluded ones, or the taken ones, exactly when it stands at some place of the order where the chunks taken before leave no room, or room, for it |
| ArtifactVersions.NextAvailableVersion | packages/storage/src/artifacts.ts:64-76 | The search ends within one more step than there are files, with the least version whose file does not exist |
| ArtifactVersions.NamesAreDistinct | packages/storage/src/artifacts.ts:79-83 | Different versions of a name are stored under different names |
| ArtifactVersions.StorageNameIs | packages/storage/src/artifacts.ts:79-83 | The first version is stored under the plain name, a later one with its decimal number between stem and extension |
| ArtifactVersions.RunDirectory.WriteArtifact | packages/storage/src/artifacts.ts:8-45 | A default write takes the first free version and never overwrites; only an explicit version can; the directory and the version returned are those of the write as a step |
| ArtifactVersions.EveryWriteStays | packages/storage/src/artifacts.ts:8-45 | Whatever is written into a directory, under any names, by default or by version: the content of a write stays under the version it was given unless a later one asks for that very file |
| ArtifactVersions.DefaultWritesLoseNothing | packages/storage/src/artifacts.ts:28-45 | Default writes of any names into any directory keep every file that was there and every content written, each in a place of its own |
| ArtifactVersions.DefaultWritesKeepAll | packages/storage/src/artifacts.ts:28-45 | Writing one name n times by default keeps all n contents as versions 1 to n |
| ModelRouter.NeverSplicesIff | packages/core/src/agent-kernel/model-router.ts:205-297 | Whatever the providers do, the caller receives one provider's stream from its beginning, and a stream that ends well is that provider's complete output, exactly when the caller does not throw at the first delta or the signal is aborted by then |
| ModelRouter.FirstThatAnswers | packages/core/src/agent-kernel/model-router.ts:213-290 | A caller that does not throw gets everything from the first provider, in order, that does not fail before its first delta; without such a provider the stream is exhausted, and an abort stops the search |
| ModelRouter.StreamChat | packages/core/src/agent-kernel/model-router.ts:205-297 | The loops over providers and deltas, with the flag set only after a yield returns |
| DeltaThrottling.NothingIsLost | packages/core/src/agent-kernel/agent-event-bus.ts:152-189 | What was pushed is what was emitted followed by what is held |
| DeltaThrottling.TimingIsGood | packages/core/src/agent-kernel/agent-event-bus.ts:162-189 | Unforced emissions are an interval apart, and whatever is held has a flush due within one interval |
| DeltaThrottle.DeltaThrottle.Push | packages/core/src/agent-kernel/agent-event-bus.ts:163-175 | Emits the whole buffer once the interval has passed; until then it holds everything, with one flush scheduled |
| DeltaThrottle.DeltaThrottle.FlushAt | packages/core/src/agent-kernel/agent-event-bus.ts:178-188 | Emits the buffer if there is one and cancels the scheduled flush |

## Left out

- PathPlanner.PlanRoute: distances are real numbers, so the rounding and overflow of floating-point sums are not modelled; the `locked` flag of an edge is never read by the planner and plays no part.
- StableValue.StableIsInjective: only JSON values are printed; a number stands for the text JSON.stringify gives it, and undefined, functions, dates and values with their own toJSON are not modelled.
- KeyOrder.OrderInsensitiveIff: localeCompare is a parameter; whether a given collation is a strict total order is not decided here.
- ToolSafety.Boundary.CheckScopedPermissions: the permission manager, the sandbox and the injection checks are parameters of the gate.
- SseStream.ParseStream: decoding bytes is not modelled; chunks are decoded text, and the decoder's last flush is a parameter. The framing is a subset of section 9.2.5 of the WHATWG HTML standard: every data line is yielded by itself, and a lone carriage return does not end a line.
- StreamChat.Chat: parsing JSON is a parameter, and requests, headers and HTTP errors are left out.
- OutboxLayer.Layer.PersistWithRetry: the waiting times between attempts are left out; events without a run id and databases without an outbox table are not modelled.
- RunLifecycle.LeasesAreSeparated: coordinators are any sequences of manager calls; that each sends fresh run ids and asks leases only of resting runs is read off the code and required of the sequence.
- RunStateManager.InMemoryRunStateManager.MarkStatus: the run object handed out is the manager's own in the code, so a caller could change it in place; the model returns values.
- RecoveryProtocol.SuspendedRunsSurvive: other writers of a run's context column are left out, and an executor's save stores a checkpoint that parses and names its own run and conversation, so what is proved of running executors is the order of save, mark and request; approvals and checkpoints are reduced to what recovery and continuation look at.
- Recovery.Database.RecoverAgentRuntimeRuns: the scan's clock readings are one value, the events and the audit record it writes are represented by the report, and storage does not fail except where an interruption does not commit.
- Recovery.Database.AnnounceApprovals: approvals created at the same instant have no order of their own in the table; the model lists them newest first.
- MessageSync.PlaySyncs: ids of new parts are new, timestamps the client stamps itself when it closes parts are taken to be the server's, and the placeholder part of the web client is left out.
- MessageStream.AssistantMessageStream.CompleteMessage: operations that arrive while the save is awaited are not interleaved with it; rich cards, content previews and snapshots are left out.
- MessageStream.AssistantMessageStream.StartTextPart: the part object handed out is shared with the stream in the code; the model returns values.
- KeysetPaging.PagingIsCompleteIff: rows do not change while they are paged, cursors are exact keys, and decoding a malformed cursor is left out.
- KeysetPaging.StaleDetectionWorker.Scan: what is done with a summary, and a storage error in the middle of a scan, are left out.
- SlidingWindow.NeverDiffersIff: an address is a string and a clock reading an integer; timers are the sweep events of the sequence.
- SlotPool.PoolIsGood: what an execution does, the processes and the bookkeeping of active executions by run are left out.
- TaskActions.RunIsGood: events are handled one after the other and rows are not deleted, so the two loops never differ over an action that is not found; a run that completes before its id has been stored is not represented, and a being's place and mood, artifacts and action logs are left out except for what their rejected writes prevent.
- ExecutionOrchestrator.Execute: progress messages, artifacts, audit records and the texts of summaries are left out; a storage error outside the attempts is not modelled.
- ToolRetries.RetriesAreBounded: validation, the safety check and the tool are answers of the world.
- MemoryRepository.Search: scores and relevance are left out except for the scope boost; how a pattern matches text is a parameter.
- EmbeddingService.LlmEmbeddingService.Embed: the map of pending requests is left out, because its entry is set after the computation without a provider has already removed it; the two vector computations are parameters.
- TokenBudgeter.Apply: token estimates are natural numbers, as the estimator produces them; sorting is the stable insertion sort that Array.prototype.sort is required to agree with.
- ArtifactVersions.RunDirectory.WriteArtifact: names are plain file names; directories in a name, checksums and the file system itself are left out.
- ModelRouter.StreamChat: selecting routes by purpose and model, call records and token estimates are left out.
- HTTP routes, WebSockets, JSON-RPC, the command line, authentication and object storage: plumbing around libraries.
- React components, rich cards and markdown: user interface.
- Secret redaction, stale-summary patterns, query expansion and other pattern lists: no structural property.
- Metrics, configuration, trace export and schemas: easy members only.
