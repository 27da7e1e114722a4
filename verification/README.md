# One GPU, two tenants: a verified model

The broker hands one GPU back and forth between an LLM backend and ComfyUI. This project models the
parts of it that can go wrong silently, and proves what they promise over every input and every run.

| files | models | main question |
|---|---|---|
| `Handoff*.dfy`, `Coordinator.dfy` | the FIFO handoff coordinator | can both tenants hold the GPU, can a request be lost or answered wrongly, can a failure wedge the broker? |
| `Multi.dfy`, `AllMode.dfy` | the group of engines, alone and under the coordinator | do several engines ever hold memory together? |
| `Tabby.dfy`, `TabbyStream.dfy`, `Prism.dfy`, `Strata.dfy` | the adapters | does an adapter ever report released memory that a late load still holds? |
| `PrismDiagnostics.dfy` | the bounded response observer | does the result depend on how the network cuts the bytes? |
| `Graphs.dfy`, `Workflow*.dfy` | the workflow compiler | do the load-time checks make building safe? |
| `TabbyChat.dfy`, `Profiles.dfy`, `Json.dfy` | the request rewriters | are they idempotent, and does the caller win? |
| `MediaJobs.dfy` | image jobs | is a job id one request, one task and bounded load? |

## How the protocol is modelled

`Handoff` holds the coordinator's fields, the place where its single dispatcher task is suspended and
what an observer can see of the GPU. Every function on that state is one stretch of code between two
suspension points, and a run is any sequence of labels: client sections, dispatcher sections with any
outcome of the awaited call, shutdown sections. Labels that are not enabled do nothing, so theorems
about all runs quantify over all label sequences, for any number of clients. `HandoffInvariant` states
what every step keeps; `HandoffTheorems` derives the promises, `HandoffAnswers` says who is told what over
whole runs, and `HandoffProgress` that no history wedges the dispatcher. `Coordinator` is the same code as a class
over the source's fields; each method is proved to take the object from one protocol value to the next.
`HandoffCode` and `HandoffLoop` put the protocol on an event loop with the condition's lock.

Works are a ledger of records and the queue holds references into it, so removal by value equality is
modelled as written and then proved to hit the intended record. "ComfyUI may hold models" is set by a
submission and cleared by a successful cleanup; "the LLM may hold memory" is set by any acquisition
attempt and cleared by a confirmed release or an observation of nothing.

The adapters meet the contract of `src/st_proxy/llm/base.py` lines 31-51 in one shape, `ReleaseConfirms`
and `AbsenceConfirms` of `Basics`: a release that returns, and an observation of nothing, mean that the
engine holds no memory. The coordinator assumes that of its calls; `Multi` derives it for a group from
its engines, and `Tabby`, `Prism` and `Strata` derive it from explicit rules of their servers (classes
`Server`, `Router`, `Installation`), which answer truthfully or not at all, at any time. One assumption
differs: the Tabby server may also change natively between two requests, while Prism's router and the
Strata installation change only under requests of their adapter.

## Where the code does less than it seems to

* With a backend kind outside the list of line 674 of `coordinator.py` (Ollama), a failed release leaves
  an unknown owner, and the next image is submitted with no release. `ExclusionExactly` gives the exact
  condition.
* TabbyAPI: acquiring without a target and without a configured model after a completed load failure
  clears the latch and then raises, so the next release accepts an unpublished model as released memory.
  The contract of `Tabby.TabbyApiBackend.AcquireGpu` gives the exact condition, `ForgottenFailureRun` a
  run. This is a gap of the adapter alone: a load without a target needs a configured model, and a
  caller that keeps its restore point, as the coordinator does, then has a target.
* Loading a workflow does not compare reference slots with Helto outputs: a slot called `reference_only`
  on such an output loads, and its reference is lost (`ReferencesSitExactly`). A slot called `save_image`
  loads as well, and the output is then no longer told to save (`OutputsStayExactly`, `SavingIsLost`).
* A default mode whose name is longer than 65536 characters loads, and then the omitted mode is refused
  (`OmittedNeverFailsExactly`).
* The Prism observer keeps a lone carriage return inside a line, where the standard ends one
  (`StandardExactly`).
* A batch that shutdown cancels before its task first runs is reported as failed while its images stay
  in preparation (`FinishedExactly`, `UnfinishedBatch`).

The return at line 527 of `coordinator.py` resolves nothing, and looks as if it could drop a chat that is
woken while close() waits for the condition. It cannot: `HandoffCode` transcribes where every coroutine
suspends and holds the condition, `HandoffLoop` runs any number of them on an event loop with the lock,
its waiters, exceptions and cancellation, and proves that nobody ever waits for the lock
(`LockIsFree`), that close() is never half done when another task runs (`CloseReachesCancel`), and so
that no chat of any backend is lost (`EveryChatIsAnswered`).

## Model

| member | source | states |
|---|---|---|
| `HandoffTheorems.ExclusionExactly` | src/st_proxy/coordinator.py:636-800 | over every run of the broker ComfyUI and the LLM never hold the GPU together, no submission runs while the LLM may hold it and no acquisition starts before ComfyUI was freed, if and only if the configuration resolves an unknown owner before granting ComfyUI (router mode, or a kind in the list at line 674) |
| `HandoffTheorems.SecondImageSlipsThrough` | src/st_proxy/coordinator.py:569-625 | a concrete run of a kind outside that list: after a failed release the next image is submitted while the LLM holds the GPU |
| `HandoffTheorems.GrantedChatsOwnTheGpu` | src/st_proxy/coordinator.py:517-567 | a granted chat implies that the LLM owns the GPU at a known restore point, the very target the chat asked for; serialised backends have at most one granted chat |
| `HandoffTheorems.GrantsAreClean` | src/st_proxy/coordinator.py:545-567 | a grant happens only with no recorded error, no failure, the LLM as owner and the chat's own target loaded |
| `HandoffTheorems.ReleasesAreQuiet` | src/st_proxy/coordinator.py:655-695 | every release runs with no active chat and no metadata lease, from a known restore point, so the error at line 693 is unreachable |
| `HandoffTheorems.CleanupIsQuiet` | src/st_proxy/coordinator.py:720-745 | ComfyUI is cleaned up only with no ComfyUI control lease held or grantable and no active chat, and for serialised backends no metadata lease, over every interleaving |
| `HandoffTheorems.PhaseIsHonest` | src/st_proxy/coordinator.py:122-128 | in every reachable state the reported phase agrees with the owner, active chats imply that the LLM owns the GPU, and serialised modes have at most one |
| `HandoffTheorems.CountersAreExact` | src/st_proxy/coordinator.py:243-264 | in every reachable state each counter equals the number (or byte sum) of the works it is named after, and the image limits hold |
| `HandoffTheorems.BatchesAreAllOrNone` | src/st_proxy/coordinator.py:387-410 | a batch takes consecutive places at the end of the queue exactly if it is not empty, the broker takes work and every one of the three limits allows it; otherwise nothing changes |
| `HandoffTheorems.DispatchIsFifo` | src/st_proxy/coordinator.py:482-490 | works are dispatched in the order of their sequence numbers over every run, and everything queued is younger than everything dispatched |
| `HandoffTheorems.BatchesRunTogether` | src/st_proxy/coordinator.py:387-410 | no other work is dispatched between two members of one batch |
| `HandoffTheorems.RemovalByValueIsExact` | src/st_proxy/coordinator.py:258-264 | removal by value equality takes off exactly the intended work, in every reachable state |
| `HandoffTheorems.ImagesAreAnsweredOnce` | src/st_proxy/coordinator.py:812-836 | an admitted image is queued and unanswered, in the dispatcher's hands, or has every future resolved, and what is resolved never changes in any later run; with what, the next rows say |
| `HandoffAnswers.EveryFutureExplained` | src/st_proxy/coordinator.py:517-836 | over every run every future of every work has its value exactly if some section served it, and an error exactly if some section refused it for that reason, by one table of who is told what |
| `HandoffAnswers.OutputsExactly` | src/st_proxy/coordinator.py:599-612 | an image has its outputs if and only if the wait for its own prompt returned, over every run |
| `HandoffAnswers.ResponsesExactly` | src/st_proxy/coordinator.py:569-598 | a submission has a response if and only if ComfyUI answered that submission |
| `HandoffAnswers.LeasesExactly` | src/st_proxy/coordinator.py:545-567 | a chat has its lease if and only if the dispatcher reached its grant while the chat was still wanted and the broker neither closing nor failed |
| `HandoffProgress.NothingIsWedged` | src/st_proxy/coordinator.py:482-800 | no history wedges the broker: from every reachable state in which it is neither closing nor failed, once all leases are closed, a run of successful calls answers every queued chat with a lease and every queued image with its response and outputs, whatever failed before and whatever the backend answers |
| `HandoffRouter.RouterFailureIsUnloaded` | src/st_proxy/coordinator.py:747-800 | after a failed router request the broker trusts the router again, and grants another chat, only if a release of its model was confirmed in between, over every run |
| `HandoffTheorems.LostOnlyWhileClosing` | src/st_proxy/coordinator.py:520-530 | a chat that nobody will answer exists only during shutdown, and only through the return at line 527 |
| `HandoffTheorems.AnswersExactly` | src/st_proxy/coordinator.py:520-530 | a limit of what the protocol alone guarantees: if acquiring the condition could suspend, no run would lose a chat if and only if the backend's chats run side by side; the loop below shows that it cannot |
| `HandoffTheorems.ClosingLosesAChat` | src/st_proxy/coordinator.py:520-530 | the run behind that limit: under a contended condition the drain loop's return could drop a chat |
| `HandoffShutdown.UninterruptedShutdownAnswersAll` | src/st_proxy/coordinator.py:838-851 | when nothing comes between the sections of close() and the dispatcher then only sees its cancellation, no run of any configuration loses a chat; the loop proves both premises |
| `HandoffShutdown.MovesAreRuns` | src/st_proxy/coordinator.py:838-851 | those runs are runs of the protocol, so every other theorem holds for them |
| `HandoffLoop.EveryChatIsAnswered` | src/st_proxy/coordinator.py:517-851 | in every state of the event loop, over any tasks built from the coordinator's coroutines, every chat of every backend is answered, queued, in hand or given up by its caller, also during shutdown |
| `HandoffLoop.LockIsFree` | src/st_proxy/coordinator.py:267-851 | the condition's lock is free whenever a task suspends and nobody ever waits for it, so entering the condition never suspends |
| `HandoffLoop.CloseReachesCancel` | src/st_proxy/coordinator.py:838-851 | from any state, a task that calls close() drains the queue and asks for the cancellation without suspending in between, exactly as the two protocol steps in a row |
| `HandoffLoop.CloseIsNeverHalfDone` | src/st_proxy/coordinator.py:838-851 | no other task ever sees close() between its first line and the request of the cancellation |
| `HandoffLoop.LoopKeeps` | src/st_proxy/coordinator.py:482-515 | every turn of the loop keeps the lock discipline, and the broker only makes moves in which shutdown is one step and a cancelled dispatcher only leaves |
| `HandoffLoop.LoopIsARun` | src/st_proxy/coordinator.py:492-515 | the broker in the loop only goes through states of the protocol, so every theorem about its runs holds there |
| `HandoffCode.ProgramOk` | src/st_proxy/coordinator.py:267-468 | in any nesting, branching, looping and exception handling of the client coroutines the condition is never nested, and no await but wait() happens inside it |
| `HandoffCode.DispatcherOk` | src/st_proxy/coordinator.py:482-827 | the same for the dispatcher with its reload, drain, submission and error paths, and on its way out after cancellation |
| `HandoffTheorems.NothingIsQueuedAfterTheEnd` | src/st_proxy/coordinator.py:822-836 | once the dispatcher has failed or close() has drained, the queue is empty and stays empty in every later run |
| `HandoffSteps.StepKeeps` | src/st_proxy/coordinator.py:267-851 | every atomic section of every client, of the dispatcher and of shutdown keeps the whole protocol invariant |
| `HandoffSteps.RunKeeps` | src/st_proxy/coordinator.py:492-515 | so does every interleaving of any number of clients |
| `HandoffHistory.RunLater` | src/st_proxy/coordinator.py:267-299 | over every run works keep their identity, futures are resolved at most once, callers only move on and the dispatch order is only extended |
| `HandoffClients.CancelImageBooks` | src/st_proxy/coordinator.py:360-372 | cancelling an image in any position keeps all accounts and answers it exactly when it was still queued |
| `HandoffClients.LeaveBatchBooks` | src/st_proxy/coordinator.py:411-418 | leaving a batch keeps all accounts and touches nothing that ownership depends on |
| `HandoffClients.AppendImagesBooks` | src/st_proxy/coordinator.py:377-407 | an admission within the limits keeps all accounts at each of its positions |
| `HandoffBooks.FailQueuedBooks` | src/st_proxy/coordinator.py:829-836 | failing the whole queue keeps all accounts and resolves every queued work |
| `HandoffBooks.FailQueuedAnswers` | src/st_proxy/coordinator.py:829-836 | failing the queue empties it and answers exactly the queued works, in any state |
| `Coordinator.HandoffCoordinator.constructor` | src/st_proxy/coordinator.py:188-237 | construction and initialize() establish the invariant for request-driven and for snapshotting backends |
| `Coordinator.HandoffCoordinator.LeaveLease` | src/st_proxy/coordinator.py:284-299 | the closing section of a chat lease, on the fields, keeps the whole invariant |
| `Coordinator.HandoffCoordinator.CheckCapacity` | src/st_proxy/coordinator.py:377-384 | the capacity loop decides exactly whether the bodies fit |
| `Coordinator.HandoffCoordinator.AppendAll` | src/st_proxy/coordinator.py:399-407 | the loop over a batch appends all its works in order, as the protocol's admission does |
| `Coordinator.HandoffCoordinator.LeaveSubmission` | src/st_proxy/coordinator.py:360-372 | leaving submit_image keeps the whole invariant, whether the image was queued or not |
| `Coordinator.HandoffCoordinator.WithdrawBatch` | src/st_proxy/coordinator.py:411-418 | the loop over a batch's works withdraws exactly the unfinished ones |
| `Coordinator.HandoffCoordinator.FailAll` | src/st_proxy/coordinator.py:829-836 | the popleft loop empties the queue, answers every work that was in it and leaves every other record as it was |
| `Coordinator.HandoffCoordinator.Dispatch` | src/st_proxy/coordinator.py:492-800 | the dispatcher continues after any await exactly as the protocol says and keeps the invariant, so every theorem about runs, those on answers and progress included, holds of the fields |
| `Multi.ReleaseGpuConfirms` | src/st_proxy/llm/multi.py:107-112 | a group release that returns leaves no engine holding memory: the contract of base.py lines 45-46 for the group |
| `Multi.GroupReleasesExactly` | src/st_proxy/llm/multi.py:107-112 | a group release returns if and only if every engine can be emptied |
| `Multi.AcquireGpuKeeps` | src/st_proxy/llm/multi.py:114-148 | every native load starts with all other engines released; success makes exactly the target active on the only engine that may hold memory, by a load of that target that came last; a load that was started leaves its target pending, whatever came of it |
| `Multi.AcquiresExactly` | src/st_proxy/llm/multi.py:114-148 | an acquisition succeeds if and only if it names an engine of the group, every other engine can be emptied, so can Kobold where it must be unloaded again, the model that is left tells its settings or that it is gone, a point to load is known and the load succeeds |
| `Multi.AcquireLogsTruly` | src/st_proxy/llm/multi.py:86-148 | every event of the log is what that engine answered |
| `Multi.ObserveReadyConfirms` | src/st_proxy/llm/multi.py:72-78 | reporting nothing means nothing is held and nothing pending; while a load is pending nothing is never reported |
| `Multi.ObservesExactly` | src/st_proxy/llm/multi.py:72-78 | it raises exactly if an engine does not answer, and reports nothing exactly if none has anything loaded and nothing is pending |
| `Multi.CachedReleaseIsExact` | src/st_proxy/llm/multi.py:86-105 | skipping the repeated Kobold unload ends in the same state as repeating it |
| `Multi.SettingsSurviveSwitch` | src/st_proxy/llm/multi.py:97-141 | leaving a model for another engine and coming back loads it with the settings observed when it was left |
| `Multi.ReleaseEngineKeeps` | src/st_proxy/llm/multi.py:86-105 | releasing one engine clears exactly that engine, and a failed release forgets nothing |
| `Multi.MultiBackend.ReleaseAll` | src/st_proxy/llm/multi.py:107-112 | the release loop over the fields, with the backend contract |
| `Multi.MultiBackend.Acquire` | src/st_proxy/llm/multi.py:114-148 | the acquisition over the fields: exclusion kept, target active |
| `Multi.MultiBackend.Observe` | src/st_proxy/llm/multi.py:72-78 | the observation loop over the engines |
| `AllMode.GroupAndBrokerAgree` | src/st_proxy/llm/multi.py:72-148 | broker and group run together: while ComfyUI owns the GPU no engine holds memory, prompts run only then, a granted chat runs on the active model of the only engine that may, the restore point is the active model, and every load started alone; over every run and every answer of the engines |
| `AllMode.FailedLoadBlocksComfy` | src/st_proxy/llm/multi.py:72-148 | temporal: at every later state after a load of an engine was started, either that engine was confirmed empty in between, or the load is still the pending one, the group never reports that nothing is loaded and ComfyUI does not own the GPU |
| `AllMode.LoadsAskForTheirModel` | src/st_proxy/llm/multi.py:97-141 | over any number of switches every native load asks for the settings last observed or restored while its model was active; a model never seen before is asked for by its own name, and on a Strata engine as the point that the engine named just before |
| `AllMode.RunKeeps` | src/st_proxy/coordinator.py:517-800 | the joint invariant holds over every run of both machines |
| `TabbyStream.ReadLoad` | src/st_proxy/llm/tabbyapi.py:291-345 | a load is marked as failed if and only if its stream ended cleanly with well-formed progress and then at least one well-formed error and nothing else, and counts as completed if and only if it ended cleanly with progress that says so and no error |
| `TabbyStream.WrittenIsRead` | src/st_proxy/llm/tabbyapi.py:295-303 | round trip: the events read from a stream are those written to it, each from its own data lines and in order |
| `TabbyStream.OthersSayNothing` | src/st_proxy/llm/tabbyapi.py:295-303 | a line that is no data field changes no event, wherever it stands |
| `Tabby.MatchesIsExact` | src/st_proxy/llm/tabbyapi.py:153-156 | the comparison accepts exactly the models that report every saved setting unchanged |
| `Tabby.OnlyAcquisitionRetries` | src/st_proxy/llm/tabbyapi.py:140-164 | a release or a passive observation that sees no model never forgets a load, and an acquisition does only after a completed failure |
| `Tabby.ForgottenFailure` | src/st_proxy/llm/tabbyapi.py:359-366 | the concrete gap, on a server: after a completed load failure that left memory behind, acquiring without target and configured model posts nothing and forgets it, and the next release returns while the server still holds memory |
| `Tabby.ForgottenFailureRun` | src/st_proxy/llm/tabbyapi.py:276-378 | the whole run from a fresh adapter: one load whose stream reports an error leads there |
| `Tabby.TabbyApiBackend.ObserveConfirmed` | src/st_proxy/llm/tabbyapi.py:140-164 | an observation settles the latch exactly when it confirms what is pending, and otherwise raises and leaves it |
| `Tabby.TabbyApiBackend.ObserveReady` | src/st_proxy/llm/tabbyapi.py:227-231 | reporting nothing means that nothing is loaded, loading or left over |
| `Tabby.TabbyApiBackend.ReleaseGpu` | src/st_proxy/llm/tabbyapi.py:249-274 | returns only with nothing loaded or loading; the first accepted answer decides: a loaded model becomes the restore point and is unloaded once, and the release returns exactly if that is answered and the next answer is "unloaded"; with nothing loaded the caller's card stays and nothing is posted |
| `Tabby.TabbyApiBackend.Load` | src/st_proxy/llm/tabbyapi.py:276-345 | a load that may still run stays remembered and is never taken for a failed one; it is completed, or failed, exactly if the stream that came proves it |
| `Tabby.TabbyApiBackend.LoadAndAwait` | src/st_proxy/llm/tabbyapi.py:376-393 | one load is posted; success is exactly a stream that proves completion followed by polls of which the last, and only that, publishes the wanted model |
| `Tabby.TabbyApiBackend.AcquireGpu` | src/st_proxy/llm/tabbyapi.py:347-396 | no load is ever posted while another may run; what is loaded and matches is kept, another model is unloaded once and the target loaded exactly if that was confirmed, with nothing loaded the target or the configured model is loaded; success means that the target and all its settings are published; held memory stays guarded if and only if the first answer is not "unloaded" with nothing to load while a failed load left memory behind |
| `Tabby.RestoreRoundTrip` | src/st_proxy/llm/tabbyapi.py:249-396 | released and restored: the server publishes again the model it published at its first answer to the release, with every one of its settings unchanged |
| `Prism.ReadList` | src/st_proxy/llm/prism.py:85-106 | a model list is accepted if and only if it is well-formed, without repeats, has the default preset and at most one active worker |
| `Prism.PrismBackend.Wait` | src/st_proxy/llm/prism.py:134-154 | confirmed if and only if the last poll shows the state asked for; every earlier poll gives a reason to look again, and waiting ends early only on a poll that gives none |
| `Prism.PrismBackend.ChangeWorker` | src/st_proxy/llm/prism.py:156-170 | one request is sent, and confirmed if and only if it is accepted and the polls that follow show it; otherwise the latch stays, and a set latch sends nothing |
| `Prism.PrismBackend.ObserveReady` | src/st_proxy/llm/prism.py:117-125 | one look decides: nothing, meaning that no worker holds memory, a ready worker's model, or an error |
| `Prism.PrismBackend.SnapshotReady` | src/st_proxy/llm/prism.py:127-132 | waits for the worker that the first look shows, or for the default preset's, and succeeds exactly if the polls show it ready |
| `Prism.PrismBackend.ReleaseGpu` | src/st_proxy/llm/prism.py:172-185 | returns only with no worker; the first look decides: without a worker it returns, with the target's worker it sends that unload and returns exactly if it is confirmed, and otherwise it raises and sends nothing |
| `Prism.PrismBackend.AcquireGpu` | src/st_proxy/llm/prism.py:187-203 | success means that exactly the target's worker is loaded; the first look decides: the target's ready worker is kept, with no worker the load is sent, another ready worker is unloaded first and the load sent exactly if that is confirmed, and otherwise nothing is sent |
| `Prism.PrismBackend.Serve` | src/st_proxy/llm/prism.py:39-44 | any number of any calls after an unconfirmed change all raise, send nothing and leave the latch set |
| `Strata.StrataBackend.Change` | src/st_proxy/llm/strata.py:114-131 | one request is sent and is confirmed if and only if its answer fits and the health that follows shows the model in the state asked for; otherwise the latch stays |
| `Strata.StrataBackend.ObserveReady` | src/st_proxy/llm/strata.py:94-97 | one look decides: nothing, meaning that nothing is held, the installation's model, or an error |
| `Strata.StrataBackend.RequestTarget` | src/st_proxy/llm/strata.py:78-87 | a name the installation lists stands for its own model, and any other for none |
| `Strata.StrataBackend.ReleaseGpu` | src/st_proxy/llm/strata.py:133-136 | asks for the unload of the installation's own model, whatever is loaded, and returns exactly if it is confirmed; any other target is refused without a request |
| `Strata.StrataBackend.AcquireGpu` | src/st_proxy/llm/strata.py:138-143 | success means that the installation's model is loaded; once the target is resolved one look decides: what is loaded is kept, and with nothing loaded the load is sent and must be confirmed |
| `Strata.StrataBackend.Serve` | src/st_proxy/llm/strata.py:40-43 | any number of any calls after an unconfirmed change all raise, send nothing and leave the latch set |
| `PrismDiagnostics.Diagnostics.Feed` | src/st_proxy/llm/prism_diagnostics.py:59-86 | feeding a chunk has the effect of feeding its bytes one by one, so chunk boundaries cannot matter |
| `PrismDiagnostics.RunAppend` | src/st_proxy/llm/prism_diagnostics.py:59-86 | feeding a and then b is feeding a+b |
| `PrismDiagnostics.RunBounded` | src/st_proxy/llm/prism_diagnostics.py:53-67 | buffer and event data together never exceed MAX_EVENT_BYTES, on every input |
| `PrismDiagnostics.StreamingIsBatch` | src/st_proxy/llm/prism_diagnostics.py:59-121 | the observer stays valid exactly when every event fits and is understood, and then knows what reading all complete lines at once would say |
| `PrismDiagnostics.StandardExactly` | src/st_proxy/llm/prism_diagnostics.py:62-73 | the lines are those of section 9.2.6 of the WHATWG HTML Living Standard if and only if no carriage return stands alone |
| `PrismDiagnostics.SentIsRead` | src/st_proxy/llm/prism_diagnostics.py:59-86 | round trip: any sequence of events, each of any number of data lines, is read back as it was sent |
| `PrismDiagnostics.StripExactly` | src/st_proxy/llm/prism_diagnostics.py:70-81 | stripping takes blanks off both ends and only those |
| `PrismDiagnostics.Diagnostics.ReadEvent` | src/st_proxy/llm/prism_diagnostics.py:88-121 | the loop over the choices keeps what precedes a malformed one and then invalidates; a well-formed event adds the finish reasons of its choices and the lengths of all their reasoning |
| `PrismDiagnostics.EventFacts` | src/st_proxy/llm/prism_diagnostics.py:88-121 | said of the choices themselves: the reasons, the sum of the lengths and the usage that an event adds, and that it is understood exactly if it is well-formed |
| `PrismDiagnostics.Diagnostics.Finish` | src/st_proxy/llm/prism_diagnostics.py:123-147 | the four outcomes of a response, exactly |
| `PrismDiagnostics.Watch` | src/st_proxy/llm/prism_diagnostics.py:48-133 | a whole response, in any chunks, is reported as complete exactly for what its bytes say: events that fit and are well-formed, end with the end mark, and one of which has a choice with a finish reason, or one such object |
| `Workflows.Load` | src/st_proxy/workflows.py:219-381 | a workflow is accepted if and only if its static checks hold, with the accumulating sets of the code |
| `Workflows.LoadParameters` | src/st_proxy/workflows.py:262-317 | the parameter loop accepts exactly distinct targets outside the LoRA controls, each with a sound definition |
| `Workflows.Normalize` | src/st_proxy/workflows.py:149-167 | accepts exactly the requests whose given values fit and whose omissions are optional; the caller's values are kept, and every other parameter gets its default unless it is drawn at random |
| `Workflows.ResolveSeed` | src/st_proxy/workflows.py:169-174 | draws a seed in range only where none is given, and the result is an accepted request |
| `WorkflowTheorems.OmittedNeverFailsExactly` | src/st_proxy/workflows.py:149-167 | omitting an optional parameter of a loaded workflow never fails, if and only if the default mode's name is at most 65536 characters long |
| `WorkflowTheorems.LongDefaultMode` | src/st_proxy/workflow_modes.py:141-144 | a workflow with a longer default mode name loads and then refuses the empty request |
| `WorkflowTheorems.NormalizeTwice` | src/st_proxy/workflows.py:149-167 | normalizing is idempotent |
| `WorkflowTheorems.ExplicitDefault` | src/st_proxy/workflows.py:149-167 | an omitted default and an explicit one give the same request |
| `WorkflowTheorems.Compile` | src/st_proxy/workflows.py:149-217 | normalize, resolve_seed and build in sequence: only validation refuses, and the caller's values are kept |
| `WorkflowBuild.Build` | src/st_proxy/workflows.py:176-217 | build writes five patches in order and plants the reference nodes, or refuses for exactly four reasons, or faults for exactly one |
| `WorkflowBuild.ApplyMode` | src/st_proxy/workflow_modes.py:146-154 | the set and remove loops apply the mode's patch |
| `WorkflowBuild.WriteReferences` | src/st_proxy/workflows.py:192-207 | slots are emptied and linked, reference by reference, to new copies of the loader |
| `WorkflowBuild.FindId` | src/st_proxy/workflows.py:201-203 | the search for an unused node id terminates with a new id |
| `WorkflowBuild.WriteParameters` | src/st_proxy/workflows.py:208-214 | the value loop writes the same graph in any order |
| `WorkflowTheorems.WritersApartExactly` | src/st_proxy/workflows.py:184-217 | the five writers touch pairwise disjoint cells if and only if no reference slot is a Helto output's reference_only |
| `WorkflowTheorems.WritersInAnyOrder` | src/st_proxy/workflows.py:184-217 | then every order of the five writers builds the same graph |
| `WorkflowTheorems.NothingElseChanges` | src/st_proxy/workflows.py:176-217 | every cell that no writer owns, every opaque node and every node kind is unchanged, and only reference nodes are new |
| `WorkflowTheorems.ReferencesSitExactly` | src/st_proxy/workflows.py:195-207 | reference i sits behind slot i and the other slots are empty, if and only if no slot is a Helto output's reference_only |
| `WorkflowTheorems.ReferencesArrive` | src/st_proxy/workflows.py:192-207 | slot i links a node that shows reference i: its own texts, every other input and the kind of the loader; no two slots link one node, and slots behind the last reference are empty |
| `WorkflowTheorems.ReferenceCells` | src/st_proxy/workflows.py:201-206 | the cells of that node, one by one: the reference's texts win over the loader's |
| `WorkflowTheorems.ValuesLand` | src/st_proxy/workflows.py:186-217 | every value ends up in its cell, every LoRA row is on exactly if the request says so and otherwise as it was, and every Helto flag is set |
| `WorkflowTheorems.ModeLands` | src/st_proxy/workflow_modes.py:146-154 | what the request's mode, or the default one, sets is set in the result and what it removes is gone, whatever the other writers do |
| `WorkflowTheorems.AddedParameters` | src/st_proxy/workflows.py:92-108 | the mode parameter takes exactly the mode file's names, with its default, and the LoRA switch takes booleans, off by default |
| `WorkflowTheorems.ShadowedReferenceIsLost` | src/st_proxy/workflows.py:338-365 | a workflow with such a slot loads, and its reference is lost |
| `WorkflowTheorems.OutputsStayExactly` | src/st_proxy/workflows.py:176-217 | every Helto output of a built request still saves, unpaused and to the destination that load checked, if and only if no reference slot is one of its checked inputs |
| `WorkflowTheorems.SavingIsLost` | src/st_proxy/workflows.py:318-359 | a workflow with such a slot loads, and for every request its output is no longer told to save |
| `WorkflowTheorems.AcceptsExactly` | src/st_proxy/workflows.py:28-44 | what a sound parameter accepts, kind by kind: the type, both bounds included, the step, the length and the choices |
| `TabbyChat.Edit` | src/st_proxy/llm/tabbyapi.py:57-99 | the in-place edit of the parsed request is the specified rewriting |
| `TabbyChat.AdaptTwice` | src/st_proxy/llm/tabbyapi.py:46-99 | rewriting bytes twice is rewriting them once, for every codec that reads back what it writes |
| `TabbyChat.AdaptedOnce` | src/st_proxy/llm/tabbyapi.py:70-98 | a rewritten request needs no change |
| `TabbyChat.NativeBudgetWins` | src/st_proxy/llm/tabbyapi.py:79-82 | a native budget that is honoured is never overridden |
| `TabbyChat.CompatibleExactly` | src/st_proxy/llm/tabbyapi.py:79-85 | the compatible budget takes the native name exactly if both native places hold nothing, null or a negative number; otherwise no budget changes |
| `TabbyChat.EffortSetsBudget` | src/st_proxy/llm/tabbyapi.py:86-96 | with no budget of any kind one is set exactly if thinking is not switched off, the effort is minimal, low or medium and there is a positive output limit: a tenth, a quarter or half of it |
| `TabbyChat.OffExactly` | src/st_proxy/llm/tabbyapi.py:74-77 | thinking is switched off for an effort of none or off exactly if nothing else says anything about it |
| `TabbyChat.EffortFrom` | src/st_proxy/llm/tabbyapi.py:58-73 | the template's variables decide the effort, else the request's own field, else its reasoning object |
| `Profiles.RecogniseMode` | src/st_proxy/model_profiles.py:59-115 | a thinking mode is recognised exactly when something is said about it and all of it is the same |
| `Profiles.ControlsAdd` | src/st_proxy/model_profiles.py:65-98 | what a request says about thinking is what its controls say one by one, those that the engine hears |
| `Profiles.EffortAlone` | src/st_proxy/model_profiles.py:99-115 | which efforts ask for which mode, for each engine |
| `Profiles.SwitchAlone` | src/st_proxy/model_profiles.py:69-73 | a switch at the top counts for TabbyAPI alone: true asks for thinking, false for none |
| `Profiles.NestedSwitchAlone` | src/st_proxy/model_profiles.py:76-101 | the same inside an object, where Strata only obeys false and thinking is understood by no engine |
| `Profiles.NestedEffortAlone` | src/st_proxy/model_profiles.py:76-101 | an effort inside an object, which Prism hears in one place only and never as none |
| `Profiles.Apply` | src/st_proxy/model_profiles.py:179-206 | the loop over the defaults fills in exactly the open parameters, in any order |
| `Profiles.OpenParameterFilled` | src/st_proxy/model_profiles.py:185-195 | a parameter the caller gives under none of its names is sent with the default of the caller's mode |
| `Profiles.ModeBeforePlain` | src/st_proxy/model_profiles.py:183-184 | a mode's default comes before the plain one, and no other mode's is used |
| `Profiles.ControlsKeepTheirBudget` | src/st_proxy/model_profiles.py:118-127 | a budget is never filled in for a caller who gives one under any name, or controls thinking anywhere |
| `Profiles.PenaltyTranslated` | src/st_proxy/model_profiles.py:196-203 | a repetition penalty under a name the engine does not read is repeated under the one it does, the first of several winning |
| `Profiles.AppliedOnce` | src/st_proxy/model_profiles.py:179-209 | applying a profile twice is applying it once |
| `Profiles.CallerWins` | src/st_proxy/model_profiles.py:179-209 | no field of the caller ever changes |
| `Profiles.UnclearSelectsNothing` | src/st_proxy/model_profiles.py:59-64 | a conflicting or unclear control leaves only the plain defaults |
| `MediaJobs.MediaJobs.Generate` | src/st_proxy/media_jobs.py:170-198 | a job id attaches to its own request, conflicts with any other and then changes nothing, or starts one task, refused exactly if the images of unfinished jobs, counted one by one, would exceed the limit |
| `MediaJobs.MediaJobs.Run` | src/st_proxy/media_jobs.py:156-210 | over any events a job never goes away, stays with its request, starts one task, and unfinished images fit the queue limit |
| `MediaJobs.MediaJobs.FinishedExactly` | src/st_proxy/media_jobs.py:221-426 | over any events, every image of a finished job succeeded or failed, if and only if it is a single job or its task took its first step after the job was made and before shutdown began |
| `MediaJobs.MediaJobs.StatusTells` | src/st_proxy/media_jobs.py:249-275 | the status of a batch that is over says what became of its images: all, some or none succeeded; failed although one succeeded only if its task ended early |
| `MediaJobs.MediaJobs.ImagesTell` | src/st_proxy/media_jobs.py:277-327 | no final status comes from nowhere: an image succeeded only if its own task said so, and failed only if that or an early end of the job's task did |
| `MediaJobs.MediaJobs.BatchDone` | src/st_proxy/media_jobs.py:249-255 | a batch whose images are all over ends as succeeded exactly if all of them did, and as failed exactly if none did |
| `MediaJobs.UnfinishedBatch` | src/st_proxy/media_jobs.py:413-426 | such a batch from a fresh table: made, cancelled by shutdown before its first step, over and failed with its image still in preparation |
| `MediaJobs.MediaJobs.TaskFails` | src/st_proxy/media_jobs.py:258-275 | an early end fails every unfinished image of a job, unless its task never ran |
| `MediaJobs.MediaJobs.Close` | src/st_proxy/media_jobs.py:413-426 | shutdown reports every unfinished job as failed and admits no new one |

## Left out

- HTTP and WebSocket transport, header rewriting, route tables, configuration, the command line, the MCP server and logging: plumbing. Two facts of service.py are rules of the model: only the serialised kinds pass a target with a chat (in the group mode every chat does), and a failed router request is reported only inside a lease.
- Time: a timeout is a failure that may come at any await; poll loops take a bound on the number of polls as a parameter.
- asyncio: code between awaits is atomic, `finally` sections complete. In the protocol acquiring the condition counts as a suspension point, so it covers more interleavings than the loop of `HandoffLoop`. There a stretch of the dispatcher may take any dispatcher step and a branch may go either way: which branch belongs to which state is the protocol's part. `NothingIsWedged` says what resuming the dispatcher leads to; that it is resumed is the scheduler's part.
- Prism and Strata: changes made natively, beside the adapter, are not modelled; Tabby's are.
- `status()`, `wait_before_history_delete`, `_record_errors` and retry counters: reporting only.
- The restore point is a value in the coordinator. That Tabby updates the coordinator's object in place during a release is stated as the second result of `Tabby.TabbyApiBackend.ReleaseGpu`, not in the coordinator.
- AllMode.GroupAndBrokerAgree: an adapter call of several native calls is one step, and cancelling the dispatcher in the middle of one leaves the group as it was; the dispatcher is gone then.
- KoboldCpp and Ollama adapters: only the contract. A router acquisition is a reservation.
- Multi: `validate_control`, `model_catalog` and the group's own `request_target` are not modelled; a target's engine is checked as acquisition checks it.
- Tabby: which texts of an error mean insufficient memory, parsing of model cards and JSON are parameters. A load whose stream reported a completed failure may leave memory behind; a model that the server publishes has replaced it.
- Prism: requests that name a model are validated by `request_target`, which changes nothing and is not modelled.
- Strata: a lifecycle request that is answered has taken effect or never will.
- PrismDiagnostics: `request_usage`, the request fields read by the constructor and the logged text. JSON parsing is a function parameter. The byte order mark, and a `data` field without a colon, of the standard are not compared.
- Workflows: the JSON shape checks of manifests, paths and sizes, prompt guidance, `describe` and the catalog; the destination path checks of Helto outputs; digits in LoRA names are ASCII. YAML parsing and the size checks of mode files; a mode that sets and removes one input is refused as in the code.
- Workflows: a nested value inside a graph cell is opaque, except the switch of a LoRA row.
- TabbyChat and Profiles: JSON and text conversion are parameters (reading an integer from text, stripping and lower case). Loading and validating the profile file is reduced to the supported names.
- MediaJobs: fingerprints are the requests themselves, so no two collide. Saving and downloading images, private parameters and the waiting callers are left out; after shutdown began a job's task may take more steps in the model than in the code.
