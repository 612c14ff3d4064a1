# Verification of vLLM-Omni's orchestration and worker bookkeeping

This project models the parts of vLLM-Omni that keep state over whole runs, in
Dafny, and proves what they keep. Modules follow the program's components:

* `InputBatch.dfy`, `ModelRunner.dfy`, `BatchProperties.dfy`: the persistent
  input batch, an incremental cache of the per-request states. The update is a
  class with the source's loops, proved against a step relation; the batch is
  then proved equal to a rebuild over every run.
* `Pipelines.dfy`, `FinalStage.dfy`, `SyncPipeline.dfy`, `SharedOutputs.dfy`,
  `AsyncPipeline.dfy`, `AsyncOrchestrator.dfy`, `AsyncSharedOutputs.dfy`: the
  synchronous scheduling loop, and the asynchronous output handler with its
  consumers, as queue protocols with every interleaving of workers, handler and
  consumers. Payloads are terms that say which request and stage they came from.
* `StageWorker.dfy`, `OutputPairing.dfy`: batch formation in a stage worker,
  the engine's collect-and-sort, and the grouping of outputs by request.
* `InitLocks.dfy`: the ordered device locks taken around initialisation.
* `FlatBuffers.dfy`, `Preprocessing.dfy`, `TokenSplit.dfy`: the flattened
  per-step buffers: prefill overlay, preprocessing, the talker's
  gather/compute/scatter, token split and spans.
* `Multimodal.dfy`, `OutputProcessor.dfy`: deferred accumulation of multimodal
  payloads and delta streaming.
* `TensorPayload.dfy`, `IpcStore.dfy`, `Metrics.dfy`: tensor payloads, the
  shared-memory store and the orchestrator's accounting.
* `SyncMetrics.dfy`: the accounting of a whole synchronous run.

Calls into libraries are parameters or assumptions: the model's preprocessing
and the talker are arbitrary functions (the talker works row by row), the
serializer gives back what it was given, a successful send enqueues one task
for its request, `lower` is ASCII lower case, and the batch container keeps
the contract that its callers rely on (removing an absent id does nothing,
adding fills the smallest hole from the request state, appending extends a
block row, condensing removes holes). The clock shows arbitrary times that do not
go back, and queues are filled by others at arbitrary moments.

Preconditions that the source relies on: scheduled ids are the disjoint union
of new and cached ids, resumed ids are cached, new ids are not live, and each
cached entry carries the data its branch reads, with one list of new blocks
per cache group; request ids are unique; a worker emits nothing for a task after
its finished result; stages read earlier stages; token ids are not negative,
unlike the placeholder.

The termination of the synchronous loop rests on one fairness assumption: while
the orchestrator sleeps because nothing was there to collect, some worker with a
task finishes one (`Omni.WorkersRun` with `waiting`).

What turned out to hold only under a condition is stated as an equivalence:

* the shared `engine_outputs` field is harmless, in both loops, exactly when no
  two requests cross: no stage on the way of one request reads, further back
  than its predecessor, a stage that another request passes too
  (`SharedOutputs.FaithfulIffUnmixed`, `AsyncSharedOutputs.FaithfulIffUnmixed`);
* on a rank that does not sample, cached tokens stay on their stream exactly
  when no accepted draft adds a placeholder and the resend leaves no gap
  (`BatchProperties.PrefixIffNoGap`), and a recovered request exactly when the
  tokens it recovers from end with its scheduled output
  (`BatchProperties.RecoveredIffAligned`); on the sampling rank rows confirm all
  tokens exactly when no placeholder stays (`BatchProperties.KeptRowIff`), and
  the tokens up to the first placeholder always (`RunConfirmsKnown`);
* the async-chunk detour changes no computed count exactly when no request
  outside the batch has rejected drafts pending
  (`BatchProperties.AsyncChunkAgreesWithPlain`);
* the round-robin fallback pairs outputs with requests exactly when there is
  one request or the requests contribute one input each up to some point and
  none after it (`OutputPairing.PairingRightIff`);
* the uniform dummy-run split meets its own assertion exactly when the pieces
  fit in the batch (`TokenSplit.SplitBalances`);
* consolidation is idempotent exactly when no list that cannot be concatenated
  ends in a list of tensors (`Multimodal.IdempotentIff`);
* lists that name a device twice block their own stage
  (`InitLocks.DeadlockFreeIff`);
* token totals balance exactly when nothing is reported late or left open
  (`Metrics.BalanceIff`); in the synchronous loop that is exactly when every
  request with tokens has a final stage that yields, because the others are
  never finalized (`SyncMetrics.RunBalancesIff`);
* transferred bytes are counted once exactly when no non-empty receipt comes
  before a non-empty send (`Metrics.CountedOnceIff`); in the synchronous loop,
  when the sender reports some bytes or the receiver none
  (`SyncMetrics.RunCountsOnceIff`).

`additional_information` may carry a bfloat16 tensor as far as the type-name
table in `vllm_omni/engine/input_processor.py:69-86` goes, but handing one to
the array library fails; the model follows the code.

## Model

| member | source | states |
|---|---|---|
| InputBatches.InputBatch.Add | vllm_omni/worker/gpu_model_runner.py:405-408 | adding a request fills the smallest hole or appends a row, and changes no other row |
| InputBatches.InputBatch.Remove | vllm_omni/worker/gpu_model_runner.py:178-179 | removing a request leaves every other row alone; an absent id changes nothing |
| InputBatches.InputBatch.Condense | vllm_omni/worker/gpu_model_runner.py:411 | afterwards there is no hole, exactly one slot per request, and every request keeps its row |
| ModelRunners.ModelRunner.UpdateCachedState | vllm_omni/worker/gpu_model_runner.py:308-394 | the new state of one cached request on both kinds of rank: draft correction, resent or discarded tokens, block ids appended or, when resumed, replaced (then the request is never in the batch) |
| ModelRunners.ModelRunner.UpdateCached | vllm_omni/worker/gpu_model_runner.py:308-403 | the in-place row update and the state update of one cached request agree with the per-request specification; no other request is touched |
| ModelRunners.ModelRunner.UpdateStates | vllm_omni/worker/gpu_model_runner.py:159-415 | under the scheduler contract the imperative update realises the step relation and leaves a dense batch with one slot per scheduled id |
| ModelRunners.ModelRunner.UpdateRequestStates | vllm_omni/worker/gpu_generation_model_runner.py:52-77 | finished, unscheduled and cached rows leave the batch; every cached request is added again with its fresh prompt |
| ModelRunners.ModelRunner.PrepareStep | vllm_omni/worker/gpu_generation_model_runner.py:102-105 | in async-chunk mode the refresh and then the ordinary update run on the same scheduler output and leave a dense batch with one slot per scheduled id |
| ModelRunners.RefreshKeepsContract | vllm_omni/worker/gpu_generation_model_runner.py:52-77 | after the refresh the tables mirror each other again and meet the contract of the ordinary update, so none of its assertions fails |
| BatchProperties.StepRebuilds | vllm_omni/worker/gpu_model_runner.py:159-415 | after a step the batch holds exactly the scheduled ids and equals the batch rebuilt from the request states; each block list is the old one plus the new ids, once |
| BatchProperties.AsyncChunkRebuilds | vllm_omni/worker/gpu_generation_model_runner.py:52-77 | the same after an async-chunk step: no request lost, no block id appended twice, prompts replaced |
| BatchProperties.AsyncChunkAgreesWithPlain | vllm_omni/worker/gpu_generation_model_runner.py:102-105 | the plain and the async-chunk step leave the same rows, block tables and unscheduled states; the computed counts agree if and only if no request that was outside the batch has rejected drafts pending |
| BatchProperties.RunRebuilds | vllm_omni/worker/gpu_model_runner.py:159-415 | at every moment of every run of plain steps, async-chunk steps and sampling the batch equals the rebuild |
| BatchProperties.StepListsFollow | vllm_omni/worker/gpu_model_runner.py:363-394 | group by group, a cached request's block list and its row's are the old list and then the ids sent, the list of a resumed one is what was sent, and otherwise they stay |
| BatchProperties.RunListsSent | vllm_omni/worker/gpu_model_runner.py:159-415 | over every run a request's block lists are its initial ones followed by everything sent since, in order and once |
| BatchProperties.NewOutcome | vllm_omni/worker/gpu_model_runner.py:232-244 | a new request's state is what was sent for it, with an empty output |
| BatchProperties.StepCounts | vllm_omni/worker/gpu_model_runner.py:315-403 | rejected drafts are taken back from the computed count, accepted ones stand as placeholders behind the output, discarded tokens are cut, and a kept row ends behind the tokens sent |
| BatchProperties.AppendsUnknown | vllm_omni/worker/gpu_model_runner.py:342-354 | from overlapping resends a request learns exactly the tokens beyond those it knew |
| BatchProperties.RecoveredTokens | vllm_omni/worker/gpu_model_runner.py:377-386 | a request recovered under async scheduling holds its stream up to the scheduled output |
| BatchProperties.StepKeepsStreams | vllm_omni/worker/gpu_model_runner.py:342-403 | one step on a non-sampling rank, with async scheduling or without, keeps every cached token list, and its row, a prefix of the true stream |
| BatchProperties.RunKeepsStreams | vllm_omni/worker/gpu_model_runner.py:342-403 | the same over every run |
| BatchProperties.PrefixIffNoGap | vllm_omni/worker/gpu_model_runner.py:315-354 | for a stream of distinct tokens the prefix is kept if and only if no accepted draft adds a placeholder and the resend starts no later than the first unknown token, or is empty |
| BatchProperties.RecoveredIffAligned | vllm_omni/worker/gpu_model_runner.py:377-386 | a recovered request keeps to its stream if and only if the tokens it recovers from end with the scheduled output |
| BatchProperties.GapBreaksPrefix | vllm_omni/worker/gpu_model_runner.py:342-354 | a resend with a gap, and the tokens it leaves |
| BatchProperties.MisalignedRecovery | vllm_omni/worker/gpu_model_runner.py:377-386 | a recovery that repeats a prompt token |
| BatchProperties.RunWithoutDrafts | vllm_omni/worker/gpu_model_runner.py:315-337 | while no drafts are scheduled none is ever pending, so no correction takes place |
| BatchProperties.KeptRowIff | vllm_omni/worker/gpu_model_runner.py:315-361 | a row that stays in the batch confirms exactly the known tokens if and only if no placeholder stays in them |
| BatchProperties.LastRankStepKeepsRows | vllm_omni/worker/gpu_model_runner.py:355-361 | so the rows of the sampling rank confirm exactly the known tokens after a step, also when output tokens were discarded or recovered |
| BatchProperties.RunKeepsRows | vllm_omni/worker/gpu_model_runner.py:355-361 | the same over every run of steps and sampling |
| BatchProperties.RunConfirmsKnown | vllm_omni/worker/gpu_model_runner.py:315-403 | in every run of the sampling rank, whatever is sampled and in every scheduling mode, rows confirm the tokens up to the first placeholder |
| BatchProperties.RecoveryRestores | vllm_omni/worker/gpu_model_runner.py:377-408 | recovering a request from real tokens makes its row confirm all of them again |
| SyncPipeline.Omni.TryCollect | vllm_omni/entrypoints/omni.py:740-897 | one poll collects the first result if there is one, forwards or completes its request, and uses up one of the remaining moves |
| SyncPipeline.Omni.RunGeneration | vllm_omni/entrypoints/omni.py:709-900 | the scheduling loop ends, whatever the pace of the workers, with every request finished and nothing queued |
| SyncPipeline.StepInv | vllm_omni/entrypoints/omni.py:738-897 | every step of a worker or the orchestrator keeps each request in exactly one place no later than its final stage, the counters right, and lowers the remaining moves by one |
| SyncPipeline.RunInv | vllm_omni/entrypoints/omni.py:731-897 | the invariant over every interleaving; a run of k steps has used up exactly k of the moves counted at the start |
| SyncPipeline.AllDone | vllm_omni/entrypoints/omni.py:732-738 | the completed counter reaches the number of requests if and only if every request is done |
| SyncPipeline.DoneIffIdle | vllm_omni/entrypoints/omni.py:738-900 | the exit condition holds if and only if neither a worker nor a poll can do anything more |
| SyncPipeline.StuckIsFinished | vllm_omni/entrypoints/omni.py:731-897 | every run that cannot go on has taken each request once through stages 0 to its final one in order, and yielded once per yielding stage on the way |
| SharedOutputs.CrossingMixes | vllm_omni/entrypoints/omni_stage.py:604-627 | when one request reaches a stage that reads further back than its predecessor, and another passes the stage read, the first can be fed the second one's output |
| SharedOutputs.FaithfulIffUnmixed | vllm_omni/entrypoints/omni_stage.py:604-627 | every reachable payload of the synchronous loop is that of a solo run if and only if no two requests cross in this way |
| Pipelines.UnmixedCases | vllm_omni/entrypoints/omni_stage.py:604-627 | requests never cross when each stage reads its predecessor, nor in a call with one request |
| Pipelines.UnmixedIffLinear | vllm_omni/entrypoints/omni_stage.py:604-627 | with two requests through the whole pipeline they cross unless each stage reads its predecessor |
| FinalStage.GetFinalStageId | vllm_omni/entrypoints/utils.py:239-277 | the last stage that yields a requested, supported modality, or the last stage when there is none |
| FinalStage.FinalUnique | vllm_omni/entrypoints/utils.py:239-277 | that description determines the stage |
| FinalStage.FinalYieldsIff | vllm_omni/entrypoints/utils.py:250-277 | the chosen stage yields an output if and only if some stage is wanted or the last one yields anyway |
| AsyncPipeline.AssertionHolds | vllm_omni/entrypoints/async_omni.py:419-421 | when a consumer takes a result, the stage it is at is the stage the handler noted and the result is its own |
| AsyncPipeline.StepInv | vllm_omni/entrypoints/async_omni.py:408-580 | every step of a client, worker, handler or consumer keeps the routing invariant and, unless requests cross, the payloads |
| AsyncPipeline.RunInv | vllm_omni/entrypoints/async_omni.py:303-580 | over every interleaving nothing is lost, duplicated, reordered or dropped, finished results come from stages 0, 1, ... in order, and unless requests cross the payloads are those of solo runs |
| AsyncPipeline.ConsumePure | vllm_omni/entrypoints/async_omni.py:430-439 | the next-stage input derives from the same request's output although the field it is read from is shared, unless requests cross |
| AsyncSharedOutputs.CrossingMixes | vllm_omni/entrypoints/async_omni.py:430-439 | crossing requests reach a state in which one is fed the other's output |
| AsyncSharedOutputs.FaithfulIffUnmixed | vllm_omni/entrypoints/async_omni.py:408-580 | over all interleavings every payload is that of a solo run if and only if no two requests cross |
| AsyncPipeline.NeverStuck | vllm_omni/entrypoints/async_omni.py:408-475 | a live request always has an enabled step of its own stage |
| AsyncOrchestrator.AsyncOmni.Generate | vllm_omni/entrypoints/async_omni.py:303-313 | registering a request and submitting its first task is the start step |
| AsyncOrchestrator.AsyncOmni.HandlerPass | vllm_omni/entrypoints/async_omni.py:553-580 | one pass moves the first result of every stage that has one to its live request, in stage order, notes the last such stage and changes nothing else; it is idle exactly when every output queue was empty |
| AsyncOrchestrator.AsyncOmni.ConsumeNext | vllm_omni/entrypoints/async_omni.py:417-439 | taking a result never fails the stage assertion and realises the consume step |
| StageWorker.Worker.FormBatch | vllm_omni/entrypoints/omni_stage.py:797-845 | the batch, the queue afterwards and the handled commands, given what was queued or arrived meanwhile; the batch is full, or a shutdown signal showed, or time was up at the last reading of the clock, and the queue is polled only once the tasks queued at the start have been looked at |
| StageWorker.FormedInOrder | vllm_omni/entrypoints/omni_stage.py:797-845 | the batch is the head followed by the first tasks that share its parameters, in order |
| StageWorker.FormedConserves | vllm_omni/entrypoints/omni_stage.py:797-845 | batch, queue, later tasks and handled commands together are a permutation of the head and what was there |
| StageWorker.FormedGood | vllm_omni/entrypoints/omni_stage.py:818-827 | all tasks of a batch share the head's parameters |
| StageWorker.Worker.NextBatch | vllm_omni/entrypoints/omni_stage.py:797-845 | a batch is non-empty, within the size limit and of one parameter set; only profiler commands are handled on the spot, and every other task is batched, queued or yet to come |
| StageWorker.Worker.Run | vllm_omni/entrypoints/omni_stage.py:780-845 | each occurrence of a task is served once or still queued behind a shutdown signal; without one each is served exactly once, and each profiler command handled exactly once |
| OutputPairing.RunEngine | vllm_omni/entrypoints/omni_llm.py:214-241 | exactly the outputs returned as finished, each as often as the engine returned it, sorted by counter |
| OutputPairing.MappedExact | vllm_omni/entrypoints/omni_stage.py:929-934 | a request's own outputs are exactly those under its id |
| OutputPairing.SortedUnique | vllm_omni/entrypoints/omni_llm.py:238-241 | two sorted lists of the same outputs with distinct counters are equal, so the sorting fixes the order |
| OutputPairing.Group | vllm_omni/entrypoints/omni_stage.py:927-943 | every request gets its own outputs, then its turns of the round robin |
| OutputPairing.EmitResults | vllm_omni/entrypoints/omni_stage.py:947-992 | exactly one message per batch request, in batch order, carrying its share |
| OutputPairing.SharesConserve | vllm_omni/entrypoints/omni_stage.py:927-943 | over all shares each output occurs exactly as often as the engine produced it |
| OutputPairing.PairingCorrect | vllm_omni/entrypoints/omni_stage.py:927-943 | with one input per request and foreign ids, request k gets exactly the output of input k |
| OutputPairing.ServeBatch | vllm_omni/entrypoints/omni_stage.py:908-992 | the same for engine, grouping and emission together |
| OutputPairing.PairingRightIff | vllm_omni/entrypoints/omni_stage.py:883-943 | when requests contribute any number of inputs, every request is given exactly the outputs of its own inputs if and only if there is one request or the counts are ones followed by zeros |
| OutputPairing.DealtToStranger | vllm_omni/entrypoints/omni_stage.py:935-943 | two inputs of the first of two requests: the second request is given an output that is not its own |
| InitLocks.RunExclusive | vllm_omni/entrypoints/omni_stage.py:144-165 | in every run no device lock is held twice, and every step brings the end closer |
| InitLocks.NoDeadlock | vllm_omni/entrypoints/omni_stage.py:129-130 | with sorted lists of distinct devices some unfinished stage can always step |
| InitLocks.DeadlockFreeIff | vllm_omni/entrypoints/omni_stage.py:129-178 | locking sorted lists is free of deadlock if and only if no list names a device twice |
| InitLocks.HaltedRunReleases | vllm_omni/entrypoints/omni_stage.py:144-204 | every run over sorted lists of distinct devices that cannot go on has taken all its steps: every stage is through and every device is free again |
| InitLocks.UnsortedDeadlocks | vllm_omni/entrypoints/omni_stage.py:130 | without the sorting two stages can lock each other out |
| InitLocks.StageProcess.AcquireOne | vllm_omni/entrypoints/omni_stage.py:151-185 | a device is locked at the first attempt in time at which it is free, and skipped exactly when there is none |
| InitLocks.StageProcess.AcquireAll | vllm_omni/entrypoints/omni_stage.py:144-185 | the locks held are exactly those recorded; in time they are those of the list, at once if all are free, and a device free at the last attempt is locked in any case |
| InitLocks.StageProcess.InitialiseLocked | vllm_omni/entrypoints/omni_stage.py:144-204 | while the engine is initialised the locks of the list are held, all of them unless time ran out; afterwards none is, whatever other processes do |
| FlatBuffers.CollectForPrefill | vllm_omni/worker/gpu_model_runner.py:891-912 | each span starts with its overlay and is otherwise unchanged, and nothing outside the spans is written |
| FlatBuffers.WrittenRow | vllm_omni/worker/gpu_model_runner.py:897-911 | a written position holds the request's own prompt row; it is in its span, in no other, and no decode position |
| FlatBuffers.UnwrittenStays | vllm_omni/worker/gpu_model_runner.py:897-911 | every position that the overlay does not write keeps its value |
| FlatBuffers.RowsWrittenOnce | vllm_omni/worker/gpu_model_runner.py:891-911 | under any split into chunks, every prompt row the chunks reach is written by exactly one step at one position, the flat position of its token; no other row is written |
| FlatBuffers.RowInPlace | vllm_omni/worker/gpu_model_runner.py:897-911 | after that step the buffer holds the row there |
| Preprocessing.Preprocessor.PreprocessOne | vllm_omni/worker/gpu_model_runner.py:1041-1070 | writes one request's span and info and gathers the talker input of a one-token request |
| Preprocessing.DecodeListExact | vllm_omni/worker/gpu_model_runner.py:1055-1061 | the gathered requests are exactly the one-token ones, each once, in batch order |
| Preprocessing.Preprocessor.TalkerForward | vllm_omni/worker/gpu_model_runner.py:1085-1112 | the padded batch run and its scatter give every gathered request its own result |
| Preprocessing.Preprocessor.Step | vllm_omni/worker/gpu_model_runner.py:1035-1112 | every request's ids, embeddings and info end as if it had been handled alone, with what the model and the talker return for it; every other row and info is unchanged |
| Preprocessing.AloneOutcome | vllm_omni/worker/gpu_model_runner.py:1041-1112 | what a request ends with, in terms of what the model returned: a one-token request the talker's embedding and codes for exactly the returned id, embedding, hidden state and text step; any other the returned rows and ids in front of the old ones; infos are overridden key by key |
| Preprocessing.Preprocessor.Merge | vllm_omni/worker/gpu_model_runner.py:1145-1162 | an update is merged into the named request only; unknown requests are ignored |
| TokenSplit.SplitBalances | vllm_omni/worker/gpu_model_runner.py:511-536 | positive entries, at most the allowed number of requests; they sum to the token count always in two modes and, in uniform mode, if and only if the pieces fit |
| TokenSplit.SplitShape | vllm_omni/worker/gpu_model_runner.py:511-533 | one-token decodes before a single prefill, pieces of the query length before what is left, or equal shares before the rest |
| TokenSplit.UniformOverflows | vllm_omni/worker/gpu_model_runner.py:527-531 | a uniform split that fails its own sum assertion |
| TokenSplit.ComputeSpans | vllm_omni/worker/gpu_model_runner.py:834-841 | spans lie behind one another and follow the prefix sums |
| TokenSplit.SliceHidden | vllm_omni/worker/gpu_ar_model_runner.py:538-544 | the slices have the scheduled lengths and concatenate to exactly the first rows of the step |
| Common.SpanOfRow | vllm_omni/worker/gpu_model_runner.py:834-841 | every row of the step lies in exactly one span |
| Multimodal.RunStands | vllm_omni/engine/output_processor.py:79-135 | over any run, with consolidations anywhere, the value at a place stands for all tensors that arrived there |
| Multimodal.DeferredIsEager | vllm_omni/engine/output_processor.py:86-135 | deferred accumulation with a final consolidation equals eager concatenation at every top-level key but audio and every nested key, wherever else consolidations happen |
| Multimodal.KeepsChunks | vllm_omni/engine/output_processor.py:86-123 | top-level audio keeps its chunks in arrival order |
| Multimodal.HoldsPieces | vllm_omni/engine/output_processor.py:79-135 | over any run and for any shapes, the pieces since the last consolidation, behind the one tensor it left |
| Multimodal.FinalOutcome | vllm_omni/engine/output_processor.py:111-135 | a final consolidation settles the pieces held; without earlier ones that is the concatenation of all pieces, or the last one when they do not fit |
| Multimodal.IdempotentIff | vllm_omni/engine/output_processor.py:111-135 | consolidating twice equals consolidating once if and only if no concatenated place holds a list that fails to concatenate and ends in a tensor list |
| Multimodal.UnsettledReachable | vllm_omni/engine/output_processor.py:86-135 | one payload after which a second consolidation still changes the dictionary |
| Multimodal.ArrivesExactly | vllm_omni/engine/output_processor.py:58-77 | each key holds the value of the last entry that arrives as that key: the two generic names as the modality, any other as itself |
| Multimodal.AudioArrives | vllm_omni/engine/output_processor.py:52-66 | the modality is lower-cased and a payload's generic outputs arrive under it |
| Multimodal.LastWins | vllm_omni/engine/output_processor.py:84-107 | a value that is no tensor replaces what was there, and so does a tensor where neither a tensor nor a list was |
| Multimodal.KindWins | vllm_omni/engine/output_processor.py:95-107 | where a key changes between a plain value and a nested dictionary, the newer one stays |
| Multimodal.FitIff | vllm_omni/engine/output_processor.py:111-123 | tensors are concatenated exactly when all have rows of one shape |
| Multimodal.LowerExact | vllm_omni/engine/output_processor.py:52 | lower case moves each capital letter and nothing else |
| OutputProcessors.OmniRequestState.AddMultimodalTensor | vllm_omni/engine/output_processor.py:48-109 | renames, normalises and merges a payload as the accumulation step says |
| OutputProcessors.OmniRequestState.ConsolidateMultimodalTensors | vllm_omni/engine/output_processor.py:111-137 | the in-place loops realise the consolidation step |
| OutputProcessors.OmniRequestState.MakeRequestOutput | vllm_omni/engine/output_processor.py:178-219 | what a call emits, suppresses and consolidates, and the new send offset |
| OutputProcessors.DeltasConserve | vllm_omni/engine/output_processor.py:188-208 | the deltas concatenate to the tokens counted as sent, fewer than the interval are pending, and a finished request has emitted all |
| OutputProcessors.DeltasSpaced | vllm_omni/engine/output_processor.py:195-208 | over any run every delta brings at least the interval's number of tokens, unless it finishes the request or nothing had been sent before it |
| OutputProcessors.WholeOutputs | vllm_omni/engine/output_processor.py:178-208 | outside delta mode nothing counts as sent and the interval has no effect: a cumulative request emits all its tokens at every call, a final-only one once at the end |
| OutputProcessors.DeltaOutputs | vllm_omni/engine/output_processor.py:188-208 | in delta mode the calls emit exactly the stream of deltas |
| TensorPayload.RavelUnravel | vllm_omni/engine/input_processor.py:263-266 | unravelling a row-major position gives back the index |
| TensorPayload.UnravelInShape | vllm_omni/engine/input_processor.py:263-266 | and ravelling an unravelled position gives back the position |
| TensorPayload.ContiguousSame | vllm_omni/engine/input_processor.py:263 | making any strided tensor contiguous keeps every element at its index |
| TensorPayload.RoundTrip | vllm_omni/engine/input_processor.py:262-275 | an encoded value decodes index for index; encoding fails exactly on values that are neither tensor nor list and on bfloat16 tensors |
| TensorPayload.EncodeInfo | vllm_omni/engine/input_processor.py:258-276 | succeeds if and only if every value is encodable, and then has exactly one entry per key |
| TensorPayload.DecodeInfo | vllm_omni/worker/gpu_model_runner.py:263-277 | succeeds if and only if every entry decodes, and keeps the keys |
| TensorPayload.Transfer | vllm_omni/worker/gpu_model_runner.py:253-281 | a whole dictionary comes back with the same keys and the same values |
| IpcStore.SharedMemory.WriteBytes | vllm_omni/entrypoints/stage_utils.py:144-173 | creates a segment that starts with the payload, replacing one of the same given name; fails only on an empty payload |
| IpcStore.SharedMemory.ReadBytes | vllm_omni/entrypoints/stage_utils.py:176-191 | reads the recorded size and unlinks the segment; a missing one is an error |
| IpcStore.SharedMemory.EncodeForIpc | vllm_omni/entrypoints/stage_utils.py:218-228 | for every threshold of at least 0 the send succeeds and the store changes by at most one new segment |
| IpcStore.SharedMemory.LoadFromIpc | vllm_omni/entrypoints/stage_utils.py:231-242 | returns the inline object or the decoded payload, and removes the segment it came in |
| IpcStore.LoadEnabled | vllm_omni/entrypoints/stage_utils.py:231-242 | a message under way can always be loaded and gives back its own object |
| IpcStore.CreatesForLarge | vllm_omni/entrypoints/stage_utils.py:218-228 | over any run exactly the sends larger than their threshold create a segment |
| IpcStore.StoreBalances | vllm_omni/entrypoints/stage_utils.py:144-242 | under every interleaving loads return what was sent, segments are created and unlinked in pairs, and an idle store is as it was initially |
| IpcStore.SentIsLoadedOnce | vllm_omni/entrypoints/stage_utils.py:218-242 | every object sent is loaded once or still under way |
| Metrics.OrchestratorAggregator.OnStageMetrics | vllm_omni/metrics/stats.py:336-349 | the totals, the event list and the transfer edge after a stage report |
| Metrics.OrchestratorAggregator.OnFinalizeRequest | vllm_omni/metrics/stats.py:419-460 | one new record with the request's tokens, time and bytes, or no change at all |
| Metrics.OrchestratorAggregator.RecordTransferTx | vllm_omni/metrics/stats.py:172-193 | sent bytes and times are added to the edge, which is created when missing |
| Metrics.OrchestratorAggregator.RecordTransferRx | vllm_omni/metrics/stats.py:195-217 | received bytes count only where none are recorded |
| Metrics.RunAgrees | vllm_omni/metrics/stats.py:419-460 | count, set of finalized requests and records agree, and the totals are the sums over the records |
| Metrics.BalanceIff | vllm_omni/metrics/stats.py:336-460 | the end-to-end tokens equal the stage totals if and only if nothing was reported after a request's finalization and nothing belongs to a request never finalized |
| Metrics.StageTotals | vllm_omni/metrics/stats.py:344-346 | a stage's total counts the output tokens reported there; input tokens count once, at stage 0 |
| Metrics.FinalizedRecord | vllm_omni/metrics/stats.py:437-459 | a finalized request's record holds all its tokens, the given time, and the sums over its own edges, each of which occurs once |
| Metrics.EdgeTimes | vllm_omni/metrics/stats.py:189-213 | an edge's times are the sums of what was reported for it, each of its kind |
| Metrics.Balance | vllm_omni/metrics/stats.py:336-460 | so they balance after every orderly run |
| Metrics.RecordsComplete | vllm_omni/metrics/stats.py:437-455 | when nothing is late, each record holds all tokens reported for its request |
| Metrics.FinalizeOnce | vllm_omni/metrics/stats.py:425-427 | finalizing again changes nothing |
| Metrics.EdgeBytes | vllm_omni/metrics/stats.py:172-217 | an edge counts the bytes sent, plus the first receipt if it came before anything was sent |
| Metrics.CountedOnceIff | vllm_omni/metrics/stats.py:205-210 | received bytes are never counted on top of sent ones if and only if nothing non-empty arrives before the first non-empty send |
| SyncMetrics.RunBalancesIff | vllm_omni/entrypoints/omni.py:762-817 | at the end of a synchronous run the end-to-end tokens equal the stage totals if and only if every request with tokens has a final stage that yields; the counters agree in any case |
| SyncMetrics.UnbalancedRun | vllm_omni/entrypoints/omni.py:800-813 | finished runs that end unbalanced exist whenever such a request does |
| SyncMetrics.RunCountsOnceIff | vllm_omni/entrypoints/omni.py:868-878 | at the end of a run an edge counts exactly the bytes sent over it if and only if the sender reported some or the receiver none |
| SyncMetrics.MiscountedRun | vllm_omni/entrypoints/omni.py:868-878 | finished runs that count a receipt exist when the send reports no bytes |

## Left out

- Request states are values in a map rather than heap objects, so aliasing between a state and the scheduler's lists is not modelled; tensors and payload dictionaries are values too.
- The batch's token buffer is unbounded and cells hold only what was written since the row was filled; the buffer's width and the speculative token cells are not modelled.
- ModelRunners.ModelRunner.UpdateCached: draft tokens count only as a number per request (the scheduled draft length), because the drafter and its token cells are foreign code.
- Reordering the batch for attention backends, metadata refresh, M-RoPE positions, LoRA, encoder cache, sampling metadata and prompt log-probabilities: foreign or without effect on the tables proved here.
- Request-id reuse, aborts, and error results in either loop (a failed request is skipped without being counted by the synchronous loop): the proofs are for error-free runs.
- SyncPipeline: a worker delivers its tasks one at a time and in any order; the batching inside a worker is in `StageWorker` and `OutputPairing`. Progress bars, time stamps and the `stage_ready` message are left out.
- AsyncPipeline: the async-chunk result path with one queue per stage (`_process_async_results`) is not modelled; a consumer coroutine is a sequence of atomic takes rather than one method, since workers may stream any number of partial results.
- The request id that `submit` adds to a task's additional information is left out; nothing proved here reads it.
- StageWorker: tasks put back behind a shutdown signal are not served, as in the source; the asynchronous worker variant is not modelled.
- OutputPairing: a diffusion stage's outputs without an id, which are numbered by position before grouping, and failures in the middle of the emission loop are not modelled.
- InitLocks: the protocol results assume no timeouts; timeouts appear in `StageProcess`, where a device that cannot be locked in time is skipped, time is counted in attempts, and what other processes hold at each attempt is an arbitrary function. Errors opening a lock file are left out, and so is the choice of devices from the environment.
- Preprocessing: additional information merged from the scheduler output before the loop in async-chunk mode, and the post-processing hook after the forward pass, repeat the merge that is modelled.
- TokenSplit.SliceHidden: only the hidden states are sliced; multimodal tensors of the same length are cut the same way, those of other shapes are passed on or dropped.
- Multimodal: a row is one abstract value, element types are not compared, and the array library's special treatment of empty one-dimensional tensors in a concatenation is not modelled; a key of a nested dictionary holds a tensor, a list or another value, not a further dictionary that is merged.
- OutputProcessors.OmniRequestState.MakeRequestOutput: parallel sampling (a parent request), pooling-only requests, text and log-probabilities are left out; a cumulative output carries all tokens, as the base class is documented to do.
- TensorPayload: element types outside the table are left out; list contents are integers.
- IpcStore: clean-up failures that the source ignores cannot happen in the model, and the unnamed send is the one its callers use; a given name is modelled in `WriteBytes` only.
- SyncMetrics: every collected result carries metrics and every send succeeds; the asynchronous loop finalizes each request itself and is not accounted for here.
- Metrics: time stamps per stage, diffusion metrics, audio frames and the summary tables are left out; times are reals that are only added.
- Model forward passes, CUDA graphs, samplers, schedulers, connectors, process start-up, configuration and the diffusion engine are not part of this model.
