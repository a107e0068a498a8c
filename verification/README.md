# Verified model of the agent runtime's protocols

This project models the parts of the runtime that have to stay right under failure, replay, crash and concurrency,
and proves what they promise over every input and every run. It has one group of modules per component:

- **Agent context** (`ContextModel` to `ContextManager`). A stack of up to three frames, a root and the children its
  plan dispatched, is rewritten by decisions, by draining an inbox and by folding summaries back. Each change is a
  draft that is validated and committed by compare-and-swap into a store with append-only records and receipts. `After…`
  functions say what each operation does to the durable state, the classes `Manager`, `InMemoryStore` and `Mutation`
  do it in place, and their methods are proved to compute those functions. The structural rules are then proved to
  survive every operation without the run-time validator.
- **Round runner** (`RoundRules`, `RoundLife`, `RoundRunner`). One dispatched run: receive its inputs, summarise or work,
  acknowledge, finish or give back, while others use the manager whenever the runner waits. The runner logs each durable
  step, and its invariant says that the durable state is the one that the log leads to. A crash leaves what a prefix of the
  log leads to, so the theorems about sequences of logs cover failures, crashes, restarts and executions again.
- **Request view** (`RequestView`, `RequestMessages`). Comparing two JSON views and patching one into the other.
- **Asynchronous work** (`AsyncWork`, `WorkTable`, `AsyncWake`, `GraphWaits`, `AsyncScheduler`). A parent's work table, its batch timer,
  wake flag and queue of serialized mutations; a step is the code between two awaits, and any interleaving is a run.
- **Conversations** (`Conversations`, `ConversationRules`, `ConversationStore`). One global message sequence, a mailbox
  with cursor and deadline per agent and conversation, sealed batches. A transaction is one step.
- **Tool executor** (`Executor`, `ExecutorRules`, `ToolExecutor`). Recorded operations, one line of side effects per
  workspace, approval, timeout, reconciliation, crash and restart.
- **Ready queue** (`ReadyQueue`, `ReadyFairness`, `ReadyAging`), **work graph** (`WorkGraph`, `GraphRuns`, `GraphRules`,
  `GraphTask`), **admission** (`Admission`, `AdmissionControl`), **capabilities** (`Capability`, `CapabilityTree`,
  `CapabilityPaths`) and **context window** (`ContextWindow`, `TurnLog`).

Where the program changes fields, there is a class with those fields, and each method's contract ties its new state to a
function of the old one; a predicate `Inv` over that state is kept by every step, and the theorems about whole runs follow
from it. Token and byte sizes are arbitrary functions. Fresh identities are drawn from a counter. Clocks, the
host's answers, model replies and failures are parameters, so a theorem holds for all of them.

Six properties that the code suggests do not hold for all inputs. The code is modelled as it is, and the exact condition is
proved in each case:

- The difference of two views tests removed members with `value[key]`, which finds names inherited from
  `Object.prototype`. Removing a member with such a name is lost. `UpdateRoundTrip` gives the condition (`Clean`: no member
  with an inherited name disappears anywhere in the tree) and `ConstructorSurvives` an example.
- Recording a failed summary attempt throws for a message of blanks, because the validator refuses the blank error
  that it would store (`FailSummaryExactly`, `BlankMessageRefused`). Blank is everything that ECMAScript's `trim` strips.
- A grant that a human issues never expires, even when the root's own grant does. Grants stay inside the root's time if and
  only if what a human approves is covered by a root grant without an end (`HumanExactly`; `HumanOutlivesRoot` is a run in
  which it is not). In scope they always stay inside (`Attenuated`).
- A graph task that waits without a model turn can be left running for ever. Its settling has no error handler, so when
  all its pending work has ended in the meantime and no wake flag is set, the task is stranded: it counts as running, nothing
  runs it, and only ending it or a restart helps (`StrandsExactly`, `StrandedStays`). Before it waits, one can tell: with
  the wake flag set or the timer fired no run strands it, and otherwise some run does (`WaitSafeExactly`). `StrandingRun`
  is a run with two subagents that strands their parent and loses a result.
- A compaction is refused when some reference it could cite is blank, which an entry from outside can bring in
  (`CompactExactly`). For the same reason a draft with unused references is refused only for its size, the
  revision limit or a blank string (`PublishDecides`).
- Admission limits are only checked to be positive, so a fractional request limit admits up to the next integer
  (`WindowHolds` states the bound as less than the limit plus one, which for whole limits is the limit itself).

## Model

| member | source | states |
|---|---|---|
| ContextStructure.DecisionKeepsStructure | src/agent-context/internal/tasks.ts:7-108 | Every one of the eleven decisions, applied to a well-formed context, either throws or leaves a well-formed one: a third frame only above a second, an executing chain exactly where it has its child, every child naming its parent's only running task at the parent's current revision, all identities distinct. |
| ContextStructure.DrainKeepsStructure | src/agent-context/internal/inbox.ts:11-46 | A drain of any inbox, with absorbing, stale notices, deferring or a scheduled compaction, leaves a well-formed checkpoint. |
| ContextStructure.IntegrateKeepsStructure | src/agent-context/internal/summaries.ts:105-147 | Folding a summary back keeps the structure: a compacted frame fits, a completed or interrupted child is released and its parent is planning again with the task finished. |
| ContextStructure.AdvanceKeeps | src/agent-context/internal/tasks.ts:44-70 | Dispatching a task leaves a well-formed context. |
| ContextStructure.AdvanceMeans | src/agent-context/internal/tasks.ts:44-70 | Dispatching makes the first waiting task the plan's only running one and changes nothing else of the plan; the task gets a child below with its parent's memory, at the parent's revision, or at the third level runs in place. |
| ContextInvariant.PublishDecides | src/agent-context/internal/manager.ts:202-215 | Publishing a structured draft with unused references fails only for the revision limit, the size or a blank string; otherwise it adds exactly the draft's records and receipts and one revision. |
| ContextInvariant.ConfigureKeeps | src/agent-context/internal/manager.ts:149-163 | A budget change re-seals a pending summary: afterwards the record at its source is the context under the new budgets. |
| ContextInvariant.StepKeepsInv | src/agent-context/internal/manager.ts:78-215 | Every manager operation, whether it succeeds or throws, keeps the whole invariant: structure, store, inbox history, receipts, and a sealed source that equals the live context. |
| ContextInvariant.RunKeepsInv | src/agent-context/internal/manager.ts:78-215 | The same over any sequence of operations. |
| ContextInvariant.CreatedInv | src/agent-context/internal/manager.ts:15-34 | A newly created agent satisfies the invariant. |
| ContextInvariant.SealedSourceAccepted | src/agent-context/internal/manager.ts:36-50 | In every such state with a pending summary, the stored record at its source is valid and equals the live context, so a restart never rejects it. |
| ContextCheckpoint.ValidateCheckpoint | src/agent-context/internal/checkpoint.ts:33-159 | The validator accepts exactly the valid checkpoints and says of any other, in the order of the source, whether it is malformed, stale or over budget; on a structured one its verdict depends on size and blank strings alone. |
| ContextCheckpoint.CrossChecksDecide | src/agent-context/internal/checkpoint.ts:112-157 | For well-formed frames the pairwise cross-checks hold exactly when the declarative stack invariant does. |
| ContextStore.PublishMeaning | src/agent-context/storage/memory.ts:18-40 | Publishing records succeeds exactly when no reference repeats one that is stored or published with it; it then adds exactly those and changes none. |
| ContextStore.InMemoryStore.Commit | src/agent-context/storage/memory.ts:18-40 | A commit replaces state, records and receipts together, or changes nothing and reports the conflict. |
| ContextSummaries.CollectSourceRefs | src/agent-context/internal/summaries.ts:6-37 | The loops over memory, plan and recent entries collect exactly the references that the frame can cite. |
| ContextSummaries.ScheduleSummary | src/agent-context/internal/summaries.ts:39-56 | Scheduling archives the live context and makes the pending summary point to that record, or throws. |
| ContextSummaries.IntegrateSummary | src/agent-context/internal/summaries.ts:105-147 | The in-place integration computes `AfterIntegrate`, the function that the structure, provenance and conservation theorems are about, with the same errors. |
| ContextTasks.ApplyDecision | src/agent-context/internal/tasks.ts:7-108 | The in-place decision machine computes `AfterDecision`, the function that the theorems are about, with the same errors. |
| ContextInbox.DrainInbox | src/agent-context/internal/inbox.ts:11-46 | The drain loop computes `AfterDrain`, including where it stops to schedule a compaction. |
| ContextConservation.DrainMoves | src/agent-context/internal/inbox.ts:11-46 | All that a drain does to the stack is to append the absorbed deliveries' entries, in order, to the active frame. |
| ContextConservation.DrainCounts | src/agent-context/internal/inbox.ts:11-46 | The inbox before is, as a multiset of keys, the inbox after plus the absorbed deliveries. |
| ContextConservation.RootDrainEmpties | src/agent-context/internal/inbox.ts:11-46 | With the root active, a drain that schedules no summary empties the inbox. |
| ContextConservation.RunConserves | src/agent-context/internal/manager.ts:78-135 | Over any run each accepted key is either in the inbox or absorbed, exactly once, whatever is redelivered or retried. |
| ContextConservation.NeverReenters | src/agent-context/internal/manager.ts:92-106 | A key that is in the history is never taken for a new delivery again. |
| ContextConservation.CreatedConserved | src/agent-context/internal/manager.ts:15-34 | A new agent has accepted no key, so the conservation of any run holds from its creation on. |
| ContextProvenance.StepClosed | src/agent-context/internal/manager.ts:78-215 | After any operation, every reference that a frame or a pending summary cites was published to the store or came with an input that was accepted: a new delivery for which there was room, or the entries of a round not done before. |
| ContextProvenance.RunClosed | src/agent-context/internal/manager.ts:78-215 | The same over any run, with the contributions of all its operations. |
| ContextProvenance.CreatedClosed | src/agent-context/internal/manager.ts:15-34 | A new agent cites nothing. |
| ContextTheorems.NoStorageConflict | src/agent-context/internal/manager.ts:202-215 | For a manager that is current, no operation is ever refused by the store: fresh references and unused receipts always get through. |
| ContextTheorems.FailSummaryExactly | src/agent-context/internal/manager.ts:172-177 | Recording a failed attempt succeeds exactly for an empty message or one with text in its first thousand characters. |
| ContextTheorems.BlankMessageRefused | src/agent-context/internal/manager.ts:172-177 | Every non-empty message whose first thousand characters are all blank is refused as invalid input. |
| ContextTheorems.BlankMessages | src/agent-context/internal/validation.ts:14 | Two spaces, the ideographic space and the no-break space are such messages. |
| ContextTheorems.CompactExactly | src/agent-context/internal/manager.ts:124-135 | A compaction decision is published exactly when the recorded frame fits and no citable reference is blank. |
| ContextTheorems.PrepareAbsorbs | src/agent-context/internal/manager.ts:119-122 | Preparing a round appends exactly the absorbed entries to the active frame. |
| ContextTheorems.RootPrepareEmpties | src/agent-context/internal/manager.ts:119-122 | With only the root live, preparing either schedules a summary or leaves no input waiting. |
| ContextTheorems.RunLasts | src/agent-context/storage/memory.ts:18-40 | Over any run no record or receipt is lost or rewritten. |
| ContextManager.Create | src/agent-context/internal/manager.ts:15-34 | Creation installs the root frame in an empty store, and refuses an occupied store, bad input or a frame over budget without a trace. |
| ContextManager.Restore | src/agent-context/internal/manager.ts:36-50 | Restoring from any durable state that a run can leave gives a manager with exactly that state; with nothing stored it fails. |
| ContextManager.Manager.Publish | src/agent-context/internal/manager.ts:202-215 | A draft is committed and only then adopted; an error leaves memory and store alone, and a manager that is no longer current always gets an error. |
| ContextManager.Manager.Receive | src/agent-context/internal/manager.ts:78-84 | All new deliveries enter the inbox and the history in one commit, or none; repeated keys must repeat their content. |
| ContextManager.Manager.ReceiveAvailable | src/agent-context/internal/manager.ts:85-91 | Takes as many new deliveries as there is room for and answers whether that was all. |
| ContextManager.Manager.Prepare | src/agent-context/internal/manager.ts:119-122 | Drains once unless a summary is pending. |
| ContextManager.Manager.Apply | src/agent-context/internal/manager.ts:124-135 | A round's decision is applied once, at the cursor it was made for, with its receipt; a repeated round changes nothing. |
| ContextManager.Manager.BeginSummaryAttempt | src/agent-context/internal/manager.ts:137-147 | Counts an attempt while attempts are left. |
| ContextManager.Manager.ConfigureBudget | src/agent-context/internal/manager.ts:149-163 | Gives all live frames and the policy the new budget, re-sealing a pending summary. |
| ContextManager.Manager.CommitSummaryPhase | src/agent-context/internal/manager.ts:179-187 | Integrates a summary once, under the receipts of the summary and of the round's summary phase. |
| ContextManager.Manager.AcknowledgeRound | src/agent-context/internal/manager.ts:189-194 | Marks a round done once, only after its summary phase. |
| ContextManager.Manager.CommitSummary | src/agent-context/internal/manager.ts:196-200 | Integrates a summary and marks the round done in one commit, once. |
| RoundRules.StepSafe | src/agent-round/runner.ts:20-117 | No operation that the runner may make leads to a durable state in which a round is done and one of its inputs is not recorded. |
| RoundRules.ReceivedAll | src/agent-round/runner.ts:34-43 | When `receiveAvailable` answers that everything fitted, every input of the batch is in the history. |
| RoundRules.ReceivesSome | src/agent-round/runner.ts:38-42 | With a free place in the inbox, a pass that could not take everything still records at least one missing input, so the loop ends. |
| RoundRunner.Runner.ReceiveBatch | src/agent-round/runner.ts:34-43 | The loop terminates; it ends with every input recorded, with a summary pending, or with an inbox that cannot be emptied. |
| RoundRunner.Runner.Decide | src/agent-round/runner.ts:96-108 | A decision is applied only with all inputs recorded and no receipt yet, and counts at most once per batch. |
| RoundRunner.Runner.SummaryRound | src/agent-round/runner.ts:70-86 | The attempt is counted before the request is sent and a failed one is noted; success leaves the round's summary receipt. |
| RoundRunner.Runner.Wait | src/agent-round/runner.ts:28-33 | While the runner waits for the host, others may receive inputs, change budgets and allow retries, in any number; each step is logged and none ends a round. |
| RoundRunner.Runner.Execute | src/agent-round/runner.ts:13-119 | Whatever host, ports and others do, the run ends released: finished with all inputs durably recorded and its round done, or returned whole; a batch with a receipt is only finished again. The log grows, each of its steps is one the protocol allows, and the durable state is the one it leads to. |
| RoundRunner.Runner.CrashOk | src/agent-round/runner.ts:20-117 | A crash after any step of an execution leaves a state in which no round is done too early and no batch has two decisions. |
| RoundRunner.Restart | src/agent-context/internal/manager.ts:36-50 | From every such state a new process gets a current manager and a runner whose log starts there; it never fails. |
| RoundLife.NextOk | src/agent-round/runner.ts:20-117 | Each durable step keeps: the context's invariant, every done round with all its inputs recorded, at most one decision a batch and only with its receipt, no batch finished before its round is done. |
| RoundLife.BirthOk | src/agent-context/internal/manager.ts:15-34 | A new agent meets what the theorems about its life ask of their start. |
| RoundLife.ErasAreOneLog | src/agent-round/runner.ts:20-117 | What durably happened over any sequence of executions, each cut off by a crash after any number of its steps and followed by a restart, is one possible log, as if nothing had ever crashed. |
| RoundLife.DecidesOnce | src/agent-context/internal/manager.ts:124-135 | Over such a life, at most one step publishes a business decision of a given batch. |
| RoundLife.FinishesRecorded | src/agent-round/runner.ts:22-26 | Over such a life, a finished batch has its round done and all its inputs durably recorded. |
| RoundLife.CrashRestarts | src/agent-context/internal/manager.ts:36-50 | Whatever crash ends such a life, a restart succeeds and no record or receipt is lost. |
| RequestView.DecimalInjective | src/agent-runtime/request-view.ts:61-61 | Different array indices have different path segments. |
| RequestView.PatchShared | src/agent-runtime/request-view.ts:50-63 | The changes of one member or element, applied in any surrounding object, turn it into its new value and leave everything else alone. |
| RequestView.PatchObject | src/agent-runtime/request-view.ts:55-56 | The changes of two objects, in any order of their keys, turn one into the other member by member. |
| RequestView.PatchItems | src/agent-runtime/request-view.ts:60-61 | The changes of two arrays of the same length turn one into the other element by element. |
| RequestView.PatchChanges | src/agent-runtime/request-view.ts:50-66 | Patching undoes comparing: a reader that holds the old view, or it with leftovers, follows all changes without an error and covers the new view. |
| RequestView.ReachedExactly | src/agent-runtime/request-view.ts:54-56 | The view reached is the new view if and only if no member with an inherited name is removed. |
| RequestMessages.ChangeRoundTrip | src/agent-runtime/request-view.ts:20-25 | A change read from its message is the change written, and an empty path is refused. |
| RequestMessages.ReadRuntimeRequest | src/agent-runtime/request-view.ts:9-48 | The message loop computes `ReadFrom`, the function that the round trips are about, with the same errors. |
| RequestMessages.Comparison.Compare | src/agent-runtime/request-view.ts:50-66 | The recursive closure appends exactly the changes of `Visit` to its list. |
| RequestMessages.UpdateRoundTrip | src/agent-runtime/request-view.ts:9-66 | Reading one update from the old view gives the new view if and only if the pair is `Clean`. |
| RequestMessages.ConstructorSurvives | src/agent-runtime/request-view.ts:52-56 | The removal of a member called `constructor` is lost. |
| RequestMessages.RequestReads | src/agent-runtime/request-view.ts:9-66 | For any base view and any sequence of updates, with ignored messages anywhere, reading raises no error and ends at the last view (or, if some update is not clean, at it plus members with inherited names). |
| RequestMessages.KeepsUpExactly | src/agent-runtime/request-view.ts:9-66 | A reader holds the sender's view before every message and at the end of any sequence of updates if and only if every update is `Clean`. |
| AsyncWork.RegisterKeeps | src/kernel/task-control-block.ts:928-981 | Registering keeps the table's invariant, joins the open generation or opens the only one, and leaves something pending. |
| AsyncWork.CompleteKeeps | src/kernel/task-control-block.ts:1505-1547 | Completing keeps the invariant and leaves an undelivered result in the same open generation. |
| AsyncWork.ClaimKeeps | src/kernel/task-control-block.ts:1215-1308 | A claim leaves nothing undelivered, answers exactly when there was something, and closes the generation exactly when all its work has ended. |
| AsyncWork.RequeueKeeps | src/kernel/task-control-block.ts:1140-1158 | Requeueing blockers keeps the invariant and the open generation. |
| AsyncWork.HandedOnce | src/kernel/task-control-block.ts:1215-1308 | No work has two results in all updates ever claimed. |
| AsyncWork.ClosedHanded | src/kernel/task-control-block.ts:1215-1308 | Every item of a closed generation has ended and its outcome was handed over. |
| WorkTable.TaskControlBlock.RegisterAsyncWork | src/kernel/task-control-block.ts:928-981 | Registers in place under ids never used before, answering with the generation joined; an error changes nothing. |
| WorkTable.TaskControlBlock.CompleteAsyncWork | src/kernel/task-control-block.ts:1505-1547 | Completes one open item in place; an unknown, closed or already ended item is an error that changes nothing. |
| WorkTable.TaskControlBlock.MarkSubagentWaiting | src/kernel/task-control-block.ts:1029-1068 | Records a capability blocker as undelivered progress of the child's item. |
| WorkTable.TaskControlBlock.ClearSubagentBlocker | src/kernel/task-control-block.ts:1070-1098 | Clears exactly the blocker of that request. |
| WorkTable.TaskControlBlock.ClaimAsyncWorkUpdate | src/kernel/task-control-block.ts:1215-1308 | Hands over everything undelivered of the open generation once and marks it, in place. |
| AsyncWake.StepKeeps | src/scheduler/task-scheduler.ts:1647-1867 | Each stretch between two awaits (progress, timer, settle, resume, model turns, graph dispatches and waits, error handlers, wake-ups, capability answers, persist, crash, reconcile, restore) keeps the wake-up invariant. |
| AsyncWake.RunKeeps | src/scheduler/task-scheduler.ts:1647-1867 | The same over any interleaving. |
| AsyncWake.RestoreKeeps | src/scheduler/task-scheduler.ts:1017-1050 | Restoring re-arms what has a deadline and delivers what is complete or overdue, re-establishing the invariant. |
| AsyncWake.CatchKeeps | src/scheduler/task-scheduler.ts:1257-1286 | A failed graph dispatch makes the task ready again whatever the wake flag says; a failed model turn first settles what is due (1567-1588). |
| AsyncWake.GraphWaitKeeps | src/scheduler/task-scheduler.ts:1300-1323 | A graph task that has nothing to start waits for its pending work without asking the model, unless a subagent's request awaits its decision; queueing its settling keeps the invariant. |
| GraphWaits.StrandsExactly | src/scheduler/task-scheduler.ts:1810-1867 | After any run, the next step leaves a running task without anyone to run it if and only if it settles a waiting graph task with no pending work and nothing due; model turns and dispatches are never left so. |
| GraphWaits.StrandedStays | src/scheduler/task-scheduler.ts:1647-1808 | Such a task stays so whatever ends, fires or wakes, until it is terminated or the process restarts. |
| GraphWaits.WaitSafeExactly | src/scheduler/task-scheduler.ts:1300-1323 | A wait cannot strand its task, whatever happens, if the wake flag is set or the timer has fired when it begins; otherwise there is a run in which it does. |
| GraphWaits.WaitSettles | src/scheduler/task-scheduler.ts:1300-1323 | A wait during which no pending work ends never strands its task, whatever else happens. |
| GraphWaits.StrandingRun | src/scheduler/task-scheduler.ts:1300-1323 | A run from the start that ends with a stranded parent, nothing queued, no timer, and an undelivered result. |
| AsyncWake.NoLostWakeUp | src/scheduler/task-scheduler.ts:1657-1867 | After any run with crashes and restarts, a blocked parent that nobody is working on waits for an item that has not ended, and an undelivered result has an armed timer of that same open generation. |
| AsyncWake.TimerWakes | src/scheduler/task-scheduler.ts:1691-1743 | When that timer fires and its mutation has its turn, the parent is ready and everything is delivered in one more update. |
| AsyncWake.DurableOnce | src/scheduler/task-scheduler.ts:1760-1808 | In the durable history too, over any run with crashes, no work's result is handed over twice. |
| AsyncScheduler.ParentScheduling.DeliverUpdate | src/scheduler/task-scheduler.ts:1760-1808 | Delivers to a task that can take it, or leaves the wake flag, in place. |
| AsyncScheduler.ParentScheduling.HandleProgress | src/scheduler/task-scheduler.ts:1657-1688 | Delivers at once when all work has ended, else arms one batch timer. |
| AsyncScheduler.ParentScheduling.HandleTimer | src/scheduler/task-scheduler.ts:1691-1743 | Only the timer that is still the current one of its generation delivers. |
| AsyncScheduler.ParentScheduling.SettleTurn | src/scheduler/task-scheduler.ts:1810-1867 | The end of a turn takes ready results, waits for pending work, or fails. |
| AsyncScheduler.ParentScheduling.RunNext | src/scheduler/task-scheduler.ts:3028-3049 | Mutations of one task run one at a time in the order they were queued. |
| AsyncScheduler.ParentScheduling.RestoreScheduling | src/scheduler/task-scheduler.ts:1017-1050 | The restart step, in place. |
| Conversations.Pick | src/agent-runtime/internal/conversations.ts:186-188 | The mailbox chosen is due and no due mailbox goes before it: addressed first, then earliest arrival, then identity. |
| ConversationRules.ArrivalDeadline | src/agent-runtime/internal/conversations.ts:154-166 | After an arrival the deadline is at most the first arrival plus the maximal wait, and unaddressed traffic never postpones an addressed mailbox. |
| ConversationRules.SendDeadlines | src/agent-runtime/internal/conversations.ts:154-166 | A message sets such a deadline for exactly the mailboxes it is meant for and leaves all others unchanged. |
| ConversationRules.SendTwice | src/agent-runtime/internal/conversations.ts:130-135 | Sending again under a key changes nothing: the same content gets the first message, other content is refused. |
| ConversationRules.FillFits | src/agent-runtime/internal/conversations.ts:190-197 | A batch takes messages from the front up to sixteen and the byte limit, and stops only when the next one would not fit. |
| ConversationRules.CutAt | src/agent-runtime/internal/conversations.ts:183-208 | Cutting the messages beyond the cursor at any of them cuts the conversation there. |
| ConversationRules.StepKeeps | src/agent-runtime/internal/conversations.ts:77-253 | Creating, sending, sealing, handing over, acknowledging and dismissing keep the tables' invariant. |
| ConversationRules.RunKeeps | src/agent-runtime/internal/conversations.ts:77-253 | The same over any run. |
| ConversationRules.BatchesTile | src/agent-runtime/internal/conversations.ts:183-233 | For a non-dismissed agent the finished batches of a conversation, concatenated, are exactly its messages up to the processed cursor, and an open batch continues there. |
| ConversationRules.OneOpenBatch | src/agent-runtime/internal/conversations.ts:183-208 | An agent never has two open batches. |
| ConversationRules.MailboxLive | src/agent-runtime/internal/conversations.ts:201-233 | Over any run, a message meant for a non-dismissed agent beyond its cursor has a deadline or an open batch of its conversation. |
| ConversationRules.PhaseBounded | src/agent-runtime/internal/conversations.ts:136-143 | However agents answer each other, one phase never carries more than the allowed number of their messages. |
| ConversationStore.Store.Create | src/agent-runtime/internal/conversations.ts:77-98 | Creates a conversation with a mailbox per agent, finds a direct one again by its members, or changes nothing. |
| ConversationStore.Store.Send | src/agent-runtime/internal/conversations.ts:108-169 | The sending transaction commits as a whole or leaves the tables unchanged. |
| ConversationStore.Store.Seal | src/agent-runtime/internal/conversations.ts:183-209 | Seals the next batch, answers with the open one, or changes nothing. |
| ConversationStore.Store.Acknowledge | src/agent-runtime/internal/conversations.ts:214-233 | Ends a batch once, moves the cursor to its end and gives what was cut off a deadline. |
| ConversationStore.Store.Dismiss | src/agent-runtime/internal/conversations.ts:245-253 | Ends the open batch without moving the cursor and silences the mailboxes, one by one. |
| ExecutorRules.StepKeeps | src/agent-runtime/internal/executor.ts:41-346 | Every transition keeps the invariant: one line per workspace, each launch linked to the one before it, starts recorded before they happen. |
| ExecutorRules.RunKeeps | src/agent-runtime/internal/executor.ts:41-346 | The same over any run with replays, timeouts, crashes and restarts. |
| ExecutorRules.StartsAtMostOnce | src/agent-runtime/internal/executor.ts:248-297 | A side-effecting operation starts at most once over any such run. |
| ExecutorRules.NeverOverlap | src/agent-runtime/internal/executor.ts:229-246 | Two side-effecting tools of one workspace are never at work together, even after the host gave up waiting. |
| ExecutorRules.StartsClean | src/agent-runtime/internal/executor.ts:248-274 | When a side effect starts, its operation was registered and its wait still open, and nothing of its workspace is at work or waits for reconciliation. |
| ToolExecutor.Tools.Stage | src/agent-runtime/internal/executor.ts:41-104 | A call is recorded under its identity before it is launched; a replay carries on from the recorded state, and other arguments are refused. |
| ToolExecutor.Tools.Approve | src/agent-runtime/internal/executor.ts:114-134 | Approval launches, denial fails, and a late answer expires the operation. |
| ToolExecutor.Tools.Reconcile | src/agent-runtime/internal/executor.ts:136-145 | An unknown outcome is settled only after the tool has stopped. |
| ToolExecutor.Tools.Execute | src/agent-runtime/internal/executor.ts:248-274 | Last checks, the durable running mark, the workspace check, and only then the tool. |
| ToolExecutor.Tools.FindUnknown | src/agent-runtime/internal/executor.ts:265-266 | Finds exactly whether the workspace has an unreconciled side effect. |
| ToolExecutor.Tools.ResolveWait | src/agent-runtime/internal/executor.ts:306-321 | A timed-out or cancelled wait makes a running side effect unknown and expires what has not begun. |
| ToolExecutor.Tools.IsolateRestored | src/agent-runtime/internal/executor.ts:147-153 | After a crash every running side effect is unknown and every running read is registered again. |
| ReadyQueue.Schedule | src/scheduler/ready-queue.ts:191-212 | The schedule has one slot for each unit of weight, all of valid depths. |
| ReadyQueue.WrapTurns | src/scheduler/ready-queue.ts:97-107 | The cursor goes around: its place differs from the sum by whole turns of the schedule. |
| ReadyQueue.Best | src/scheduler/ready-queue.ts:156-167 | The candidate of an effective depth is one that no other of that depth goes before, boosted first, then oldest; none only if the depth is empty. |
| ReadyQueue.ChosenExists | src/scheduler/ready-queue.ts:137-176 | A dequeue of a non-empty queue always finds an entry. |
| ReadyQueue.Ready.Dequeue | src/scheduler/ready-queue.ts:97-107 | Takes the chosen entry out in place and moves the cursor behind its slot. |
| ReadyQueue.Ready.Enqueue | src/scheduler/ready-queue.ts:67-91 | Appends one entry with the next order, or reports why not and changes nothing. |
| ReadyQueue.Ready.Remove | src/scheduler/ready-queue.ts:113-123 | Removes exactly that task's entry and answers whether it was there. |
| ReadyFairness.TurnWeight | src/scheduler/ready-queue.ts:191-212 | Any full turn, wherever it begins, has as many slots of a depth as its weight. |
| ReadyFairness.Fair | src/scheduler/ready-queue.ts:97-107 | While an effective depth stays occupied, every full turn's worth of dequeues serves it at least its weight, whatever arrives, leaves or ages. |
| ReadyFairness.NoStarvation | src/scheduler/ready-queue.ts:137-189 | With nothing boosted at its depth, an entry of steady effective depth with k older entries is gone after k+1 full turns (sooner with more weight), whatever is enqueued meanwhile. |
| ReadyAging.NobodyWaitsForEver | src/scheduler/ready-queue.ts:137-189 | Where nothing is boosted and the clock does not go back, any entry with k older ones is gone after three times k+1 full turns, whatever arrives, leaves or ages; nothing is assumed of its effective depth. |
| WorkGraph.AcyclicExactly | src/graph/agent-work-graph.ts:363-388 | The depth-first cycle check accepts exactly the dependencies that have a topological order. |
| WorkGraph.CycleCheck.VisitNode | src/graph/agent-work-graph.ts:363-388 | The recursive visit over the two sets computes the order that the theorem is about. |
| WorkGraph.ValidateProposal | src/graph/agent-work-graph.ts:162-244 | The validation loops report an error exactly for proposals that are not accepted. |
| WorkGraph.AcceptedExactly | src/graph/agent-work-graph.ts:162-244 | A proposal is accepted exactly when it is well formed and its nodes have an order of work. |
| GraphRules.StepKeeps | src/kernel/task-control-block.ts:439-638 | Every node operation and every scheduler advance keeps the graph's invariant. |
| GraphRules.RunKeeps | src/kernel/task-control-block.ts:439-638 | The same over any run. |
| GraphRules.WorksInOrder | src/kernel/task-control-block.ts:474-638 | A node is ready, running, blocked or completed only after all its dependencies are done. |
| GraphRules.StallsOnlyOnFailure | src/graph/agent-work-graph.ts:319-361 | With nothing active and nothing startable, a graph is complete or has a failed node. |
| GraphRules.PlansOnlyWhenQuiet | src/scheduler/task-scheduler.ts:1209-1331 | The scheduler gives a graph back to planning only when it is complete or has a failed node. |
| GraphTask.GraphRuntime.ReplaceWorkGraph | src/kernel/task-control-block.ts:439-471 | Installs an accepted graph with the next revision, only in plan mode. |
| GraphTask.GraphRuntime.CompleteCurrentNode | src/kernel/task-control-block.ts:519-533 | Completes the current node in place and leaves no current node. |
| GraphTask.GraphRuntime.CompleteDelegatedNode | src/kernel/task-control-block.ts:580-616 | Ends the blocked node of that subagent with its outcome. |
| GraphTask.GraphRuntime.AdvanceReady | src/scheduler/task-scheduler.ts:1209-1331 | Delegates, works, waits or returns to planning, in the scheduler's order of preference. |
| GraphTask.Startables | src/graph/agent-work-graph.ts:319-337 | One pass finds all startable delegated nodes and the first startable one of the task itself. |
| Admission.WindowHolds | src/scheduler/admission-controller.ts:86-186 | With a monotone clock, any admissions within sixty seconds of each other keep to the request limit (rounded up) and the token limit. |
| Admission.RetryAhead | src/scheduler/admission-controller.ts:86-186 | The time a rate denial names lies in the future. |
| Admission.DeniedUntilRetry | src/scheduler/admission-controller.ts:86-186 | The same request is denied at every instant before that time, whatever else happens in between. |
| Admission.RunKeeps | src/scheduler/admission-controller.ts:59-186 | Over any run what was forgotten has left the window and every admission kept to the limits at its time. |
| AdmissionControl.AdmissionController.TryAcquire | src/scheduler/admission-controller.ts:86-163 | Admits with a new open lease or denies with all reasons; active requests equal open leases. |
| AdmissionControl.AdmissionController.PruneExpired | src/scheduler/admission-controller.ts:165-178 | Shifts exactly what has left the window off both lists. |
| AdmissionControl.AdmissionLease.Close | src/scheduler/admission-controller.ts:45-57 | Releases its place once; a second close changes nothing. |
| Capability.ContainsExactly | src/capability/capability.ts:182-206 | The scope check decides exactly whether one set of resources includes the other. |
| Capability.RootIssued | src/capability/capability-manager.ts:116-137 | A root gets one grant for each request and none that was not asked for; at any time they cover every request, allow what needs no human, and can be handed on exactly where a rule lets agents hand on. |
| Capability.ValidateDelegation | src/capability/capability-manager.ts:139-171 | Succeeds exactly when every distinct request has a delegable source grant, and answers with the first for each. |
| Capability.DelegateNarrows | src/capability/capability-manager.ts:173-216 | Handing down succeeds exactly when every request can be met; each handed grant then narrows a live, delegable grant of the issuer that needs no human: same capability, no more resources, same expiry. |
| Capability.HumanIssued | src/capability/capability-manager.ts:352-376 | A human's grants are one for each request and no other, and allow all of them at any time. |
| Capability.Check | src/capability/capability-manager.ts:218-250 | Splits the distinct requests: for each that is held a grant that fits it, in order, and exactly the others are missing. |
| Capability.PlanRequest | src/capability/capability-manager.ts:252-334 | Refuses, asks a human, or plans the path from the nearest ancestor that can delegate everything. |
| Capability.NearestHolder | src/capability/capability-manager.ts:252-334 | The holder found can delegate everything and no nearer ancestor can. |
| Capability.ApprovePath | src/scheduler/task-scheduler.ts:1938-2105 | When every ancestor on the planned path approves at once, no hop is refused, the requester ends up with everything, and nobody loses a grant. |
| CapabilityPaths.PathDelivers | src/scheduler/task-scheduler.ts:2027-2105 | Over any run, a routed request is never refused: after any number of its hops were approved, at any times before something runs out and among any other events, it is that many hops further or its requester holds all of it. |
| CapabilityPaths.RequestDelivers | src/scheduler/task-scheduler.ts:1938-2105 | From asking to holding: once as many hops as the path has were approved, the requester misses nothing of what it asked for until something runs out. |
| Capability.OneUse | src/kernel/task-control-block.ts:697-723 | A grant for one use serves the operation that used it first, again and again, and no other. |
| CapabilityTree.RunKeeps | src/scheduler/task-scheduler.ts:1938-2105 | Restored roots, spawning, asking, approving hop by hop, human approval, use and termination keep every grant covered by its root in scope; and in time as well, as long as humans approve only what root grants cover for good. |
| CapabilityTree.Attenuated | src/kernel/task-control-block.ts:725-832 | Over any run, also with root grants that expire or are limited, every grant that any task holds is covered by a grant its root came with: same capability, containing scope. |
| CapabilityTree.AttenuatedInTime | src/kernel/task-control-block.ts:725-832 | The same with time: each grant expires no later than the root grant that covers it, as long as humans approve only what root grants cover for good. |
| CapabilityTree.HumanExactly | src/capability/capability-manager.ts:352-376 | A human's approval keeps every grant inside the root's time if and only if each request is covered by a root grant without an end. |
| CapabilityTree.HumanOutlivesRoot | src/capability/capability-manager.ts:352-376 | A run in which it does not: a root holds a capability until 10, a human grants it at 5, and the new grant never ends. |
| ContextWindow.OrderDisjoint | src/context/context-window-manager.ts:92-140 | For any list of summaries the replacement order is inside the context and free of overlap. |
| ContextWindow.GreedyMaximal | src/context/context-window-manager.ts:92-140 | A turn summary is left out only if it overlaps one that is kept or what is already covered. |
| ContextWindow.ReplaceTiles | src/context/context-window-manager.ts:142-169 | Every source index is kept verbatim in order or covered by exactly one selected summary. |
| ContextWindow.ReplaceSummaries | src/context/context-window-manager.ts:142-169 | The summaries in the result are exactly the selected ones, in order. |
| ContextWindow.ContextWindowManager.Select | src/context/context-window-manager.ts:52-90 | Below the warning line everything is kept; above it the selection is the shortest prefix of the replacement order that reaches the target, and secondary compaction is requested exactly when none does. |
| TurnLog.Turns.CompleteModelTurn | src/kernel/task-control-block.ts:1316-1328 | A summary covers the turn since the cursor, and the cursor moves on with or without one. |
| TurnLog.Turns.RecordSecondary | src/kernel/task-control-block.ts:1336-1355 | A secondary summary covers a prefix of the context; a range beyond it is refused, and the cursor stays. |
| TurnLog.RecordedKept | src/kernel/task-control-block.ts:1316-1355 | Recorded turns never compete with each other: one that is not empty is in the replacement order if and only if the secondary summary that the order takes ends before it. |

## Left out

- Restoring a terminated graph: the program leaves a failed node current on termination and its restore refuses that; nothing is claimed about restoring terminated tasks.
- RequestView.PatchChanges: member names called `__proto__` are excluded, as the schema library drops them while parsing; that library is not part of this model.
- RequestMessages.ReadRuntimeRequest: views are values, so aliasing between a patched view and its message is not modelled; an edit that would take a view out of JSON (a delete inside an array, a write beyond its end) is an error here, and no such edit is ever produced by the comparison.
- RequestMessages.Comparison.Compare: equality of `JSON.stringify` outputs is taken as equality of values; two objects that differ in key order only give more changes in the program than here, with the same meaning.
- ContextConservation.RunConserves: an absorbed delivery counts once whether it was absorbed in full or as a stale notice.
- Context store: one namespace; sizes are naturals from an arbitrary function; the text of summary requests and the parsing of replies are parameters.
- Context checkpoints: values are immutable, so the program's copies and freezing have no counterpart. Texts are sequences of characters, where the program cuts and measures UTF-16 units.
- RoundRunner.Runner.Execute: hooks of the host that only observe (`inputsReceived`, `failureReturned`) and request budgets are folded into host answers that may fail; the scheduler behind its interface is a port that can fail at each call. Decisions by others than the runner (`apply`, `commitSummary`) do not happen while it waits.
- AsyncWake.StepKeeps: writing to the store is assumed to succeed; the life of a subagent is only its reports to the parent. What the scheduler loop does after an uncaught error is not part of this model.
- AsyncWake.NoLostWakeUp: it is about tasks that are blocked on their work; whoever has to answer a capability request is outside the model.
- GraphWaits.WaitSafeExactly: while a task is still being restored, a timer that has fired may be replaced, so there only the wake flag is shown to make waiting safe.
- Conversations.Pick: the order of identities as texts is an arbitrary ranking.
- ConversationStore.Store.Send: the SHA-256 of a key is the key itself, and database transactions are functions on maps; views that only read (`list`, `mailboxes`, `due`) and titles are left out.
- ExecutorRules.StartsAtMostOnce: a failing store stops the process, as in the program; the only torn write is the running mark; an agent keeps its workspace.
- ToolExecutor.Tools.Execute: the results of permission and agent-status checks are inputs; result payloads, snapshots and notifications are left out.
- ReadyQueue.Ready.Dequeue: `peek`, `snapshot` and the peak size are left out, as is the gap between peeking and dequeuing in the scheduler loop.
- GraphTask.GraphRuntime.AdvanceReady: results, error texts, timestamps and events of nodes are left out; the status `abandoned` counts as done but is never produced.
- Capability.ContainsExactly: resources are strings as they come out of normalization; URL and path normalization is not modelled.
- CapabilityTree.Attenuated: grants of a restored root may expire and be limited; a restored descendant, the ceilings of characters and the restore of legacy grants are left out.
- CapabilityPaths.RequestDelivers: a grant that runs out between two approvals makes the later hop refuse, as in the program; the theorem is about the time before anything runs out.
- ContextWindow.ContextWindowManager.Select: token estimates are naturals; the text put in place of a range is the summary itself.
- Model providers, requesters, the user interfaces, the HTTP server, sandboxes, SQL, prompt texts and role catalogues: they talk to the outside or have no property beyond one field check.
- Work budgets, the agent pool, metrics and the task transition tables: simple counters and one-step facts.
