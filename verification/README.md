# HarvestMoE: scheduling, memory layout and kernels

HarvestMoE serves mixture-of-experts models with more weights and more cached keys and values than the GPU holds. It
splits a queue into micro-batches and interleaves them: the GPU projects, the CPU attends, and the expert weights of the
next layer are streamed into a double buffer meanwhile. This project models that machinery and proves that none of it
changes what is computed, or says exactly when it does.

The modules follow the program:

- `Network`, `TokenStream`, `Schedule`, `ExecutionEngine`, `ModelRpc`: the serving loop. Layers are arbitrary functions over
  an arbitrary tensor type. Two workers may complete submitted tasks between any two steps. The loop is proved against plain
  layer-by-layer execution, and that against the tokens and caches that the numeric pieces alone produce.
- `WeightLayout`: the expert cache, its two pages, the slots of a page, and what the kernel reads through the index map.
- `KvStreams`: the events between compute and offload streams in prefill, as a state machine over all interleavings.
- `MicroBatches`, `Admission`: the greedy packer, whom it aborts, and when it leaves a micro-batch empty.
- `KvLayout`, `KvPool`, `Serving`: the two-line GPU cache and the flat CPU pool, from a queue up to the window that attention
  reads for every admitted request.
- `ExpertTracker`, `ExpertReallocation`: moving experts between GPU and CPU, with failures at any point.
- `Optimizer`, `CostModel`, `PolicySearch`: the linear program in exact reals, on coefficients and as it is written in the
  configuration, and the search around it.
- `Softmax`, `FlashAttention`, `ContextAttention`: two blocked recurrences against plain softmax. The exponential is any
  positive function with `exp(x + y) == exp(x) * exp(y)`; minus infinity is explicit.
- `DecodeAttention`: the decode kernel on these windows, from a queue to attention of every request over its own history.
- `PidMap`, `MoeAlign`, `FusedMoe`: the grouped, padded, tiled matrix products against the sum over a token's experts.
- `TensorParallel`, `WeightLoading`, `ShardedMoe`, `QkvParallel`: sharding over ranks against the unsharded model.
- `PagedKvCache`: block table and block-addressed cells against a map from sequences to token lists.

`Basics` holds shared vocabulary. Products and quotients are written by repeated addition and subtraction (`Times`,
`Quotient`, `Remainder`) and proved equal to `*`, `/` and `%`; all operands are natural numbers, so truncation and floor
agree.

## Findings

Where the code does not do what one expects, the model keeps the code and the exact condition is proved.

- The decode loop issues the first half of later layers only with more than two micro-batches
  (fastmoe/serve/router/model_rpc.py:212). With one or two, every layer after the first reuses the attention output of
  layer 0. `Network.PlainIffMoreThanTwo` and `ModelRpc.PlainForGenLen` give the condition, `Network.StaleTokenDiffers` a
  network whose every decoded token is wrong.
- For the same reason keys and values of generated tokens are stored for layer 0 only, while lengths and write positions
  move on for all layers. `KvPool.WindowsIffMoreThanTwo` gives the condition, `KvPool.TwoBatchesMissTokens` a concrete input,
  `KvPool.SkippedLayerStays` and `Network.LaterCachesStay` what later layers hold instead. The warm-up path always makes a
  single micro-batch.
- With a single micro-batch exactly one decode step is taken, whatever generation length was asked for
  (fastmoe/serve/router/model_rpc.py:188). `ModelRpc.TokensAsAsked`: a request gets as many tokens as it asked for if and only
  if there are several micro-batches and it asked for at least one, or there is a single one and it asked for two.
- The inner size is divided by the number of ranks with a floor (fastmoe/models/mixtral-offload.py:59), without a check.
  `TensorParallel.LosslessIffDivisible`: this is lossless for every expert, input and activation if and only if it divides.
- A move that fails at writing the index map is reported as failed, but the tracker has already changed
  (fastmoe/backend/expert_reallocation.py:258-269 and 341-353). No weights are lost, but after such a move out the index map
  still names the slot that was given up, and the next expert may take it: `ExpertReallocation.ExpertMover.MoveExpertToGpu`,
  `MoveExpertToCpu` and `SlotSharedAfterFault`.
- Allocating blocks again for a sequence that owns blocks loses these (fastmoe/backend/paged_kv_cache.py:44);
  `PagedKvCache.Allocation` has the exact condition.
- No row of a prompt meets a fully masked block in the prefill kernel if and only if the key block is a multiple of the row
  tile or the prompt lies within the whole tiles of the first block (`ContextAttention.KeysForAllRowsIff`);
  `UnsuitedMasksRow` names a row that does. Its caller uses equal sizes.
- The comment at fastmoe/backend/execution_engine.py:169 says that a request is aborted if no partition can hold it; the code
  only tries the partition with the smallest sum. `Admission.AbortsOnlyFullIff`: for all queues and lines the comment is right
  if and only if there is at most one micro-batch, at most two requests go into each, no token is generated, or one token with
  three requests. `Admission.RefusedWithRoom` is an input that shows the difference.
- Some micro-batch stays empty if and only if fewer requests than micro-batches would fit into a line alone
  (`Admission.NoneEmptyIffEnoughFit`), which `prepare_for_prefill` cannot handle (fastmoe/backend/task.py:189).
  `Serving.ServeQueue` therefore requires that many.

## Model

| member | source | states |
|---|---|---|
| `ModelRpc.BatchForwardStep` | fastmoe/serve/router/model_rpc.py:160-244 | whatever the CPU attention worker and the pin-copy worker do between two steps, with more than two micro-batches each one ends exactly as after layer-by-layer prefill and decode, for arbitrary layer functions; and its tokens and caches are those of `Generated`; with one or two it ends as `PipelineServe` describes; every sequence is longer by the number of decode steps, and the last step read the last token but one; the number of tokens is the one asked for exactly when `EnoughTokens` says so |
| `ModelRpc.Prefill` | fastmoe/serve/router/model_rpc.py:169-183 | all micro-batches end as after layer-by-layer prefill, every layer read the weights of that layer, and the weights of layer 0 are on page 0 again |
| `ModelRpc.Decode` | fastmoe/serve/router/model_rpc.py:190-241 | one decode step takes every micro-batch through all layers once, and pin copies are submitted for layers 1, 2, ..., L-1, 0, every slot once and in order |
| `ModelRpc.DecodeIteration` | fastmoe/serve/router/model_rpc.py:204-224 | the invariant of the inner loop: which attention tasks and pin copies are under way, what both GPU pages and the pinned slots hold, how far every micro-batch is, and which copies were submitted |
| `ModelRpc.PinAhead` | fastmoe/backend/execution_engine.py:426-438 | the pin copy due after step (i, k), if any, is the next one in the order of the step |
| `ModelRpc.DecodeAll` | fastmoe/serve/router/model_rpc.py:187-241 | any number of decode steps adds up to as many steps of every micro-batch |
| `ModelRpc.PlainForGenLen` | fastmoe/serve/router/model_rpc.py:188-220 | for a given generation length the loop does what layer-by-layer execution does, for every network, if and only if there are more than two micro-batches, or two and nothing to decode |
| `Network.PlainIffMoreThanTwo` | fastmoe/serve/router/model_rpc.py:212-220 | after `t` decode steps the pipeline agrees with layer-by-layer execution for every network if and only if there are more than two micro-batches or `t` is 0 |
| `Network.AllStartedServes` | fastmoe/serve/router/model_rpc.py:204-220 | a step in which every layer starts with its first half is a plain decode step, over whole runs |
| `Network.StaleTokenDiffers` | fastmoe/serve/router/model_rpc.py:212-220 | with at most two micro-batches a network exists whose every decoded token is wrong |
| `Network.LaterCachesStay` | fastmoe/serve/router/model_rpc.py:212-220 | with at most two micro-batches decode never changes the cache of a layer after the first |
| `Network.BufferForgotten` | fastmoe/backend/execution_engine.py:391-396 | what the pinned hidden buffer holds before a decode step has no influence on the step |
| `Network.TokensServed` | fastmoe/backend/execution_engine.py:413-423 | prefill yields one token and each decode step one more, whichever layers start with their first half |
| `ModelRpc.TokensAsAsked` | fastmoe/serve/router/model_rpc.py:187-188 | a request gets the number of tokens it asked for if and only if there are several micro-batches and it asked for at least one, or there is a single one and it asked for two |
| `ModelRpc.ExposedStep` | fastmoe/serve/router/model_rpc.py:118-135 | any number of batches in turn, with the engine reset in between: each one ends as if it were served alone |
| `Network.Advances` | fastmoe/backend/task.py:118-126 | after prefill and `t` decode steps, plain or pipelined, every sequence is `t` longer and the last step read the token sampled just before it |
| `TokenStream.ServeGenerates` | fastmoe/serve/router/model_rpc.py:160-244 | layer-by-layer execution yields exactly the tokens and caches of a plain recursion over layers and steps: what a layer hands to the next, what is cached, what is sampled and how long the sequences are |
| `Schedule.ScheduledAsExpected` | fastmoe/serve/router/model_rpc.py:204-220 | before step (i, k) every micro-batch has completed exactly the layers the loop order says, and those at most two steps away have their next layer started |
| `Schedule.ScheduledToTheEnd` | fastmoe/serve/router/model_rpc.py:204-220 | the interleaved order takes every micro-batch through all layers, first to last |
| `ExecutionEngine.ExecutionEngine.InitGpuExperts` | fastmoe/backend/execution_engine.py:453-505 | residents of all layers stand in their areas, and the index map of a layer names them and then the page of its parity |
| `ExecutionEngine.ExecutionEngine.PrefetchExperts` | fastmoe/backend/execution_engine.py:215-231 | the page of the layer is filled, the other page and all residents are kept, and the page pointer flips |
| `ExecutionEngine.ExecutionEngine.PrefetchExpertsDecode` | fastmoe/backend/execution_engine.py:232-252 | the copy of exactly this slot is awaited and appended to the page being filled; the other page and the residents stay, and the page flips with the last slot only |
| `ExecutionEngine.ExecutionEngine.PrefetchExpertsToPin` | fastmoe/backend/execution_engine.py:255-256 | the copy is pending for this slot only, and logged; a slot whose last copy is still pending cannot be submitted again |
| `ExecutionEngine.ExecutionEngine.CopyToPinTask` | fastmoe/backend/execution_engine.py:258-280 | the slot gets the rows of the submitted layer; every other slot keeps what it holds or was promised |
| `ExecutionEngine.CopyKeeps` | fastmoe/backend/execution_engine.py:267-280 | completing one copy never changes what another slot holds or was promised |
| `ExecutionEngine.ExecutionEngine.Layer` | fastmoe/backend/execution_engine.py:309-362 | a whole prefill layer with the rows that the index map reads; activations are dropped after the last layer |
| `ExecutionEngine.ExecutionEngine.OffloadKvCache` | fastmoe/backend/execution_engine.py:284-289 | the line of the micro-batch becomes its cache of that layer |
| `ExecutionEngine.ExecutionEngine.OffloadHiddenPrefill` | fastmoe/backend/execution_engine.py:298-306 | hidden states go to the CPU, if there are any |
| `ExecutionEngine.ExecutionEngine.LoadHiddenPrefill` | fastmoe/backend/execution_engine.py:291-296 | hidden states come back, if there are any |
| `ExecutionEngine.ExecutionEngine.PrepareForDecode` | fastmoe/backend/execution_engine.py:211-213 | every micro-batch continues from its last token, every sequence is one longer, and nothing else changes |
| `ExecutionEngine.ExecutionEngine.PreAttention` | fastmoe/backend/execution_engine.py:364-369 | projection of one micro-batch; all others unchanged |
| `ExecutionEngine.ExecutionEngine.OffloadQkv` | fastmoe/backend/execution_engine.py:371-376 | the projection is in the pinned buffer of this micro-batch only |
| `ExecutionEngine.ExecutionEngine.CpuAttention` | fastmoe/backend/execution_engine.py:378-379 | the attention of this layer is pending |
| `ExecutionEngine.ExecutionEngine.CpuAttentionTask` | fastmoe/backend/execution_engine.py:381-389 | completing a pending task changes no settled state: any moment gives the same result |
| `ExecutionEngine.ExecutionEngine.LoadHidden` | fastmoe/backend/execution_engine.py:391-396 | awaits the attention and loads its output, whether or not the worker had already completed it |
| `ExecutionEngine.ExecutionEngine.PostAttention` | fastmoe/backend/execution_engine.py:398-423 | second half of a layer with the rows that the index map reads; a token is added after the last layer |
| `ExecutionEngine.ExecutionEngine.SetMicroBatches` | fastmoe/backend/execution_engine.py:187-198 | no future and no projection of an earlier batch is left |
| `ExecutionEngine.ExecutionEngine.Reset` | fastmoe/backend/execution_engine.py:558-573 | no micro-batch, projection or future is left, and streaming starts from page 0 |
| `WeightLayout.SlotsTilePage` | fastmoe/backend/execution_engine.py:70-87 | for every number of micro-batches the decode slots tile a page: every row is in exactly one slot |
| `WeightLayout.SlotBounds` | fastmoe/backend/execution_engine.py:121-132 | consecutive slots meet without a gap, and the last one ends with the page |
| `WeightLayout.RowsOfSlots` | fastmoe/backend/execution_engine.py:110-132 | addressing by expert slot (prefill) and by row (decode) names the same cells, and the cache has exactly those |
| `WeightLayout.EverySlotIsNamed` | fastmoe/backend/execution_engine.py:453-505 | no slot is wasted: resident areas and two pages of the other experts make up the cache, and every slot of the area of a layer and of its page is some expert of the layer |
| `WeightLayout.ResidentKept` | fastmoe/backend/execution_engine.py:215-252 | a copy behind the resident area never touches a resident expert |
| `WeightLayout.OtherPageKept` | fastmoe/backend/execution_engine.py:110-132 | filling one page leaves the other alone |
| `WeightLayout.FillingMore` | fastmoe/backend/execution_engine.py:232-252 | a slot copy extends the page that is being filled and keeps residents and the other page |
| `WeightLayout.ReadsTrueRows` | fastmoe/backend/execution_engine.py:488-504 | with residents in place and the page of the layer filled, the index map of the layer reads the true weights of every expert, resident or streamed |
| `KvStreams.StoresCopyTheirOwn` | fastmoe/backend/execution_engine.py:284-289 | on every run of host, compute stream and offload stream each store copies what its own layer and micro-batch wrote to the line, never a later writer's data |
| `KvStreams.TakeKeepsInv` | fastmoe/backend/execution_engine.py:309-331 | every step of host or streams keeps the event invariant |
| `KvStreams.StreamsFinish` | fastmoe/backend/execution_engine.py:284-331 | the streams alone bring all issued work to its end, after which the data of every item is stored |
| `KvStreams.LineOfItem` | fastmoe/backend/memory.py:54-59 | layer i of micro-batch k uses the line of the parity of k; neighbours in a layer never share one |
| `KvStreams.StreamsNeverWaitForever` | fastmoe/backend/execution_engine.py:316-320 | the two kinds of events never block both streams |
| `MicroBatches.CreateMicroBatches` | fastmoe/backend/execution_engine.py:135-188 | the split that `Pack` describes outside warm-up, a single micro-batch in warm-up |
| `MicroBatches.MicroBatchesRight` | fastmoe/backend/execution_engine.py:142-188 | exactly `n_ub` micro-batches that fit their line, and every request in exactly one of them or aborted |
| `MicroBatches.PackSound` | fastmoe/backend/execution_engine.py:152-178 | after every request: open partitions are not full, and all fit |
| `MicroBatches.PackAccounts` | fastmoe/backend/execution_engine.py:152-178 | no request is lost or duplicated |
| `MicroBatches.PackBalanced` | fastmoe/backend/execution_engine.py:157-178 | at every point any two open partitions differ in total length by at most the last request put into the heavier one, over closings and aborts |
| `MicroBatches.PackSpread` | fastmoe/backend/execution_engine.py:157-178 | with positive lengths no partition gets a second request while another one is empty |
| `MicroBatches.NoneIdle` | fastmoe/backend/execution_engine.py:142-188 | with positive lengths exactly min(n_ub, admitted) micro-batches are non-empty |
| `MicroBatches.Assign` | fastmoe/backend/execution_engine.py:152-178 | one turn of the loop is one placement; sums and partitions stay in step over `pop` |
| `MicroBatches.PackInOrder` | fastmoe/backend/execution_engine.py:143-185 | the loop computes the packing of the requests in their order |
| `MicroBatches.SortedIsStable` | fastmoe/backend/execution_engine.py:149 | requests of the same length stay in the order of the queue |
| `MicroBatches.IndexOfMin` | fastmoe/backend/execution_engine.py:158 | the first smallest sum |
| `Admission.AbortsOnlyFullIff` | fastmoe/backend/execution_engine.py:158-176 | trying the lightest partition alone never aborts a request that an open partition could hold, on any queue and for any line, if and only if there is at most one micro-batch, at most two requests in each, no token to generate, or one token and three requests |
| `Admission.RefusedWithRoom` | fastmoe/backend/execution_engine.py:158-176 | four requests of which the last is aborted although an open partition would hold it |
| `Admission.DecidesForAll` | fastmoe/backend/execution_engine.py:158-176 | under that condition every abort in the packing of ordered requests is of a request that no open partition can hold |
| `Admission.AdmittedOrFull` | fastmoe/backend/execution_engine.py:152-178 | while a partition is empty exactly the requests that fit a line alone are admitted |
| `Admission.NoneEmptyIffEnoughFit` | fastmoe/backend/execution_engine.py:142-188 | no micro-batch is empty if and only if at least `n_ub` requests of the queue fit a line alone |
| `KvLayout.RegionsApart` | fastmoe/backend/task.py:171-188 | regions of different requests, of the same or of different micro-batches, do not overlap |
| `KvLayout.RegionInLine` | fastmoe/backend/task.py:171-188 | prompt and all generated tokens of a request stay within the line of its micro-batch |
| `KvLayout.AdmittedFits` | fastmoe/backend/execution_engine.py:166-168 | what the capacity check admits fits a line, although prompts may have been truncated after they were measured |
| `KvLayout.PackedFits` | fastmoe/backend/execution_engine.py:142-188 | whatever is queued, the packed micro-batches can be laid out without leaving their lines |
| `KvLayout.ContextSizes` | fastmoe/backend/execution_engine.py:700-702 | the buffer sizes give two GPU lines and exactly one CPU line per micro-batch |
| `KvLayout.PromptLands` | fastmoe/backend/task.py:177-180 | scattering the joined prompts puts each one where its request starts |
| `KvPool.LayOut` | fastmoe/backend/task.py:168-188 | the running offsets compute the addresses of the layout |
| `KvPool.TokenToKVPool.constructor` | fastmoe/backend/memory.py:9-28 | two lines on the GPU, a whole number of lines on the CPU |
| `KvPool.TokenToKVPool.AllocCpu` | fastmoe/backend/memory.py:54-59 | the next CPU line, and the two GPU lines in turn |
| `KvPool.TokenToKVPool.Store` | fastmoe/backend/memory.py:30-34 | exactly the addressed stretch of one layer is overwritten, from the GPU line of the same parity |
| `KvPool.TokenToKVPool.Clear` | fastmoe/backend/memory.py:64-66 | the next batch starts from line 0 again; cached data is not touched |
| `KvPool.TokenToKVPool.StoreKvCache` | fastmoe/layers/attention.py:150-157 | the loop assigns the indexed positions in order |
| `KvPool.TokenToKVPool.StoreKvCacheCpu` | fastmoe/layers/attention.py:137-142 | the same for one layer of the CPU pool |
| `KvPool.LineOfStart` | fastmoe/backend/memory.py:31 | line n of the CPU pool maps to GPU line n mod 2 |
| `KvPool.Batch.PrepareForPrefill` | fastmoe/backend/task.py:129-191 | the batch gets the next line and is laid out in it |
| `KvPool.Batch.PrepareForDecode` | fastmoe/backend/task.py:118-126 | every sequence and every write position moves on by one |
| `KvPool.Batch.OffloadKvCache` | fastmoe/backend/task.py:236-239 | the used part of the line goes to the same place of the CPU pool |
| `KvPool.DecodeAppends` | fastmoe/layers/attention.py:137-142 | the write positions append one entry to every list of the micro-batch |
| `KvPool.DecodeKeepsOthers` | fastmoe/layers/attention.py:137-142 | and leave the lists of every other micro-batch alone |
| `KvPool.PrefillLayer` | fastmoe/serve/router/model_rpc.py:169-183 | after store and offload of a layer the prompts of this micro-batch are in their regions, and those of the others still are |
| `KvPool.DecodeAll` | fastmoe/serve/router/model_rpc.py:204-220 | a step stores the tokens of layer 0, and of later layers only with more than two micro-batches |
| `KvPool.ServeAll` | fastmoe/serve/router/model_rpc.py:169-241 | after any number of steps the window of every request is its prompt and its generated entries in every layer whose attention is issued; other layers are as prefill left them |
| `KvPool.WindowsIffMoreThanTwo` | fastmoe/serve/router/model_rpc.py:212-220 | every window of every layer is right, whatever is generated, if and only if there are more than two micro-batches, no step was taken, or there is only one layer |
| `KvPool.TwoBatchesMissTokens` | fastmoe/serve/router/model_rpc.py:212-220 | two micro-batches, two layers, one step: the second layer misses the token |
| `KvPool.SkippedLayerStays` | fastmoe/layers/attention.py:67-73 | a layer whose attention is not issued keeps its prompts and whatever stood behind them |
| `KvPool.WindowIsList` | fastmoe/backend/task.py:118-126 | the window from `start_loc` on for `seq_lens` positions is the list of the request |
| `Serving.ServeQueue` | fastmoe/serve/router/model_rpc.py:160-244 | from any queue: every request is aborted or in one micro-batch, and every admitted one finds exactly its own prompt and tokens in its window, with the buffers of the context |
| `Serving.LengthsAgree` | fastmoe/backend/task.py:118-126 | after a batch is served, the length that the pipeline has for a request is that of its window in the pool: its prompt and the decode steps |
| `Serving.SplitQueue` | fastmoe/backend/execution_engine.py:135-188 | with enough requests that fit a line alone no micro-batch is empty, and all fit |
| `ExpertTracker.Pigeonhole` | fastmoe/backend/expert_reallocation.py:370-387 | a layer below its limit has a free slot |
| `ExpertTracker.FullLayer` | fastmoe/backend/expert_reallocation.py:370-387 | a layer at its limit has none |
| `ExpertTracker.RoomInLayerIsRoom` | fastmoe/backend/expert_reallocation.py:174-202 | while no layer exceeds its limit, room in one layer is room over all |
| `ExpertTracker.CountUpdate` | fastmoe/backend/expert_tracker.py:104-117 | how one update changes the number of residents |
| `ExpertTracker.ExpertTracker.UpdateExpertLocation` | fastmoe/backend/expert_tracker.py:104-117 | one entry changes, unknown experts change nothing |
| `ExpertTracker.ExpertTracker.InitResidents` | fastmoe/backend/execution_engine.py:461-486 | the first experts of every layer are resident, each in its own slot |
| `ExpertTracker.LoadedIsElsewhere` | fastmoe/backend/expert_tracker.py:54-73 | the summary calls loaded exactly the experts at one of the four locations other than not loaded |
| `ExpertTracker.SummaryOfHoused` | fastmoe/backend/expert_tracker.py:54-73 | while every expert is in a slot of its layer or on the CPU, the summary of a layer counts all of them as loaded, each at exactly one of the two places |
| `ExpertReallocation.ExpertMover.constructor` | fastmoe/backend/execution_engine.py:453-504 | right after loading, slots, limits, weights and index map all agree |
| `ExpertReallocation.ExpertMover.CanMoveToGpu` | fastmoe/backend/expert_reallocation.py:174-202 | which check refuses, in the order of the checks |
| `ExpertReallocation.ExpertMover.FindFreeGpuSlot` | fastmoe/backend/expert_reallocation.py:370-387 | the first free slot of the area of the layer, and one is found whenever the layer is below its limit |
| `ExpertReallocation.ExpertMover.IsSlotFree` | fastmoe/backend/expert_reallocation.py:389-399 | no resident of the layer has the slot |
| `ExpertReallocation.ExpertMover.MoveExpertToGpu` | fastmoe/backend/expert_reallocation.py:204-284 | succeeds if and only if there is room and nothing fails; a failed move leaves tracker and index map unchanged if and only if it did not fail at writing the index map; weights of all experts stay recoverable, the double buffer is untouched; the expert is then resident, cached on device 0, in the first slot of its layer that was free |
| `ExpertReallocation.ExpertMover.MoveExpertToCpu` | fastmoe/backend/expert_reallocation.py:286-368 | the same for a move out, after which the expert is in CPU memory, idle, without device and slot: the index map agrees with the tracker afterwards if and only if writing it did not fail |
| `ExpertReallocation.ExpertMover.CopyToSlot` | fastmoe/backend/expert_reallocation.py:232-256 | a copy into a free slot loses no weights of any expert |
| `ExpertReallocation.ExpertMover.AllocateCpuStorage` | fastmoe/backend/expert_reallocation.py:438-468 | new CPU memory holds garbage, but the expert is still recoverable |
| `ExpertReallocation.ExpertMover.SlotInCache` | fastmoe/backend/expert_reallocation.py:317-330 | the slot of a resident expert lies in the cache and holds its weights |
| `ExpertReallocation.ExpertMover.SlotSharedAfterFault` | fastmoe/backend/expert_reallocation.py:342-353 | after a move out that failed at writing the index map, the next expert of a full layer gets the slot that the index map still names for the first, which then reads the wrong weights |
| `ExpertReallocation.ExpertMover.MoveOutAndBack` | fastmoe/backend/expert_reallocation.py:204-368 | moving out and back in succeeds and changes nothing but the entry of the expert |
| `ExpertReallocation.ExpertMover.Handle` | fastmoe/serve/router/model_rpc.py:509-520 | outcome and new residents of one request, and who may be out of step |
| `ExpertReallocation.ExpertMover.Process` | fastmoe/serve/router/model_rpc.py:509-520 | over every run of requests with arbitrary failures: slots exclusive, limits kept, no weights lost; outcomes and residents follow from the requests alone; only experts whose last move failed at writing the index map can disagree with it; every expert stays in a slot of its layer or on the CPU |
| `ExpertReallocation.EntryKeeps` | fastmoe/backend/expert_reallocation.py:259-266 | registering an expert where its weights are keeps every expert recoverable |
| `ExpertReallocation.ScratchKeeps` | fastmoe/backend/expert_reallocation.py:244-250 | writing a cell that is nobody's slot, or the storage of a resident expert, loses nothing |
| `ExpertReallocation.FreeSlotIsNobodys` | fastmoe/backend/expert_reallocation.py:389-399 | a slot free in its layer belongs to no expert of any layer |
| `ExpertReallocation.OnlySlotLeft` | fastmoe/backend/expert_reallocation.py:370-387 | in a full layer the expert that moves in gets the slot of the one that moved out |
| `Optimizer.CostsOf` | fastmoe/backend/optimizer.py:19-73 | the coefficients of the linear program have the signs and lower bounds that the search relies on |
| `Optimizer.MlpFlopsOfBatch` | fastmoe/backend/utils.py:157-158 | the MLP flop count of a micro-batch, as time, is linear in its size |
| `Optimizer.MlpBytesOfBatch` | fastmoe/backend/utils.py:160-165 | the MLP byte count is linear plus a fixed part |
| `Optimizer.AttentionFlopsOfBatch` | fastmoe/backend/utils.py:139-144 | the attention flop count is linear |
| `Optimizer.AttentionBytesOfBatch` | fastmoe/backend/utils.py:146-155 | the attention byte count is linear |
| `Optimizer.SolutionIsShare` | fastmoe/backend/optimizer.py:77-168 | every solution of the program is a share of experts that fits, and takes at least the time of that share |
| `Optimizer.BestShareIsOptimal` | fastmoe/backend/optimizer.py:77-168 | the largest share that fits gives the least time; there is no solution without it |
| `Optimizer.SolveLp` | fastmoe/backend/optimizer.py:14-224 | an optimal solution if there is any, and none otherwise |
| `Optimizer.SmallerFits` | fastmoe/backend/optimizer.py:129-168 | a smaller batch of smaller micro-batches fits with the same share |
| `Optimizer.FewerArePossible` | fastmoe/backend/optimizer.py:129-168 | feasibility is antitone in micro-batch size and number |
| `Optimizer.BetweenBatches` | fastmoe/backend/optimizer.py:77-168 | between two feasible batch counts the best time lies on or below the line: it is convex |
| `Optimizer.OnePeak` | fastmoe/backend/optimizer.py:276-282 | once throughput falls with a larger batch it never recovers |
| `Optimizer.Faster` | fastmoe/backend/optimizer.py:182-185 | throughputs compare like batches per time |
| `Optimizer.BelowLimit` | fastmoe/backend/optimizer.py:227-232 | no batch beyond the GPU memory is feasible, so both loops end |
| `Optimizer.FasterBatch` | fastmoe/backend/optimizer.py:183-185 | throughputs compare like sequences per time, across micro-batch sizes too |
| `Optimizer.TokensOverTime` | fastmoe/backend/optimizer.py:183-185 | throughput times the time of all decode steps and layers is the number of tokens |
| `CostModel.TimesAre` | fastmoe/backend/optimizer.py:84-127 | the times that are compared are the operation and byte counts of transfer, experts and attention over the rates of the configuration |
| `CostModel.HomeDIs` | fastmoe/backend/optimizer.py:144 | the GPU peak in decode, written out |
| `CostModel.HomePIs` | fastmoe/backend/optimizer.py:149 | the GPU peak in prefill, written out |
| `CostModel.CpuHomeIs` | fastmoe/backend/optimizer.py:165 | the CPU peak: experts, two vectors of two bytes per token, layer and sequence, and hidden states of the prompts |
| `CostModel.ProgramIs` | fastmoe/backend/optimizer.py:44-168 | the program that is solved is the program as written in the quantities of the configuration, constraint by constraint |
| `PolicySearch.GridIs` | fastmoe/backend/optimizer.py:261-288 | the sizes that are probed: 1, 2, 3, and from 4 on every 32nd |
| `PolicySearch.ProgramIsRegular` | fastmoe/backend/optimizer.py:14-224 | for every configuration the program is antitone, bounded and has one peak |
| `PolicySearch.GetNbUb` | fastmoe/backend/optimizer.py:227-246 | doubling and bisection find the largest feasible number of micro-batches: all up to it are feasible and none beyond |
| `PolicySearch.Scan` | fastmoe/backend/optimizer.py:276-282 | stopping at the first fall of throughput loses no better policy |
| `PolicySearch.Probe` | fastmoe/backend/optimizer.py:263-284 | one micro-batch size, with the number of micro-batches given or searched |
| `PolicySearch.Search` | fastmoe/backend/optimizer.py:259-288 | the best candidate, and of equally fast ones the last in the order of the search |
| `PolicySearch.NoLargerSize` | fastmoe/backend/optimizer.py:268-274 | stopping at the first size that fits nowhere loses nothing |
| `PolicySearch.Solve` | fastmoe/backend/optimizer.py:256-293 | the search ends with an optimal policy that no solution for any probed batch exceeds; there is none only if no candidate is feasible. Field by field, its shares are those of a solution of the program as written that takes no longer than any other, and the throughput is its tokens over its time |
| `PolicySearch.NoneIsFaster` | fastmoe/backend/optimizer.py:182-185 | no solution for a batch exceeds its best throughput |
| `Softmax.TotalStep` | fastmoe/csrc/flashattention.cpp:484-493 | one block of the running maximum and sum keeps both exact, for every split into blocks |
| `Softmax.SumStep` | fastmoe/csrc/flashattention.cpp:494-517 | the accumulator, rescaled with the maximum, keeps its meaning |
| `Softmax.QuotientIsAttention` | fastmoe/csrc/flashattention.cpp:521-527 | accumulator over sum is plain softmax attention |
| `Softmax.TwoStageTotal` | fastmoe/layers/context_flashattention_nopad.py:84-91 | the same sum, with the block lowered to its own maximum first |
| `Softmax.NormalisedStep` | fastmoe/layers/context_flashattention_nopad.py:93-107 | the accumulator that is renormalised in every block keeps its meaning |
| `Softmax.NormalisedIsAttention` | fastmoe/layers/context_flashattention_nopad.py:118 | after the last block it is plain softmax attention |
| `Softmax.MaxBounds` | fastmoe/csrc/flashattention.cpp:105-129 | no exponent exceeds 0, and the maximum is finite unless all keys are masked |
| `Softmax.MaskedEnd` | fastmoe/layers/context_flashattention_nopad.py:81 | masked keys behind the last one change nothing |
| `FlashAttention.VecMax` | fastmoe/csrc/flashattention.cpp:105-129 | the maximum of a row of scores |
| `FlashAttention.ExpReduceSum` | fastmoe/csrc/flashattention.cpp:70-103 | the row becomes its lowered exponentials, and their sum is returned |
| `FlashAttention.ScoreBlock` | fastmoe/csrc/flashattention.cpp:459-475 | the scaled products of all query heads of the group with a block of keys |
| `FlashAttention.UpdateRow` | fastmoe/csrc/flashattention.cpp:477-498 | maximum and sum cover one block more; the accumulator is rescaled except at the first block |
| `FlashAttention.AccumulateBlock` | fastmoe/csrc/flashattention.cpp:501-517 | the weighted values are added; at the first block what the buffer held is dropped |
| `FlashAttention.DecodeBlock` | fastmoe/csrc/flashattention.cpp:457-518 | the buffers of a group cover one block more, for every row and dimension |
| `FlashAttention.DecodeHead` | fastmoe/csrc/flashattention.cpp:449-518 | after all blocks of any size they cover the whole window |
| `FlashAttention.StoreHead` | fastmoe/csrc/flashattention.cpp:519-528 | every row of the group is attention over its window; no other cell changes |
| `FlashAttention.StepIsNext` | fastmoe/csrc/flashattention.cpp:44-67 | stepping the loop counters is computing them for the next offset |
| `FlashAttention.OffsetIs` | fastmoe/csrc/flashattention.cpp:435-437 | an offset is one sequence and one head |
| `FlashAttention.DecodeRange` | fastmoe/csrc/flashattention.cpp:435-531 | a thread completes exactly the heads of its range |
| `FlashAttention.AttentionIsPlain` | fastmoe/csrc/flashattention.cpp:459-475 | attention written out with exponentials of scaled sums of products: the same value belongs to the scaled query with scale 1, and with scale 0 it is the mean of the values |
| `FlashAttention.CpuFlashDecodeGqa` | fastmoe/csrc/flashattention.cpp:368-534 | for every cut of the work into ranges and every block size, every query head of every sequence ends with plain softmax attention over its window, through the key/value head of its group; written out, with the scaling factor |
| `DecodeAttention.WindowIsListAttention` | fastmoe/layers/attention.py:76-84 | attention over a window of the pool is attention over the list that stands in it, whatever is stored elsewhere |
| `DecodeAttention.AttendMicroBatch` | fastmoe/layers/attention.py:67-84 | the kernel on the windows of a micro-batch, for every cut of the work and every block size, gives each request attention over its own prompt and generated entries |
| `DecodeAttention.DecodeQueue` | fastmoe/serve/router/model_rpc.py:160-244 | from a queue to the last decode step: in every layer whose attention is issued each admitted request attends to exactly its own prompt and tokens |
| `ContextAttention.KeysForAllRowsIff` | fastmoe/layers/context_flashattention_nopad.py:66-81 | every row of every tile of a prompt has an unmasked key in every block that the tile reads if and only if the block size is a multiple of the tile or the prompt ends within the whole tiles of the first block |
| `ContextAttention.UnsuitedMasksRow` | fastmoe/layers/context_flashattention_nopad.py:66-81 | otherwise the second block is all masked for a row of the prompt whose tile reads it |
| `ContextAttention.RowIsCausal` | fastmoe/layers/context_flashattention_nopad.py:71-81 | neither padding nor later keys have any part in a stored row |
| `ContextAttention.UpdatePrefillRow` | fastmoe/layers/context_flashattention_nopad.py:83-110 | one block of keys for one row, renormalised |
| `ContextAttention.UpdateTile` | fastmoe/layers/context_flashattention_nopad.py:68-110 | the same for all rows of a tile |
| `ContextAttention.RunTile` | fastmoe/layers/context_flashattention_nopad.py:61-110 | after all blocks the rows cover at least their causal keys |
| `ContextAttention.Program` | fastmoe/layers/context_flashattention_nopad.py:33-118 | the rows of the tile that belong to the prompt are causal attention; nothing else is written |
| `ContextAttention.ContextAttentionFwd` | fastmoe/layers/context_flashattention_nopad.py:124-187 | every row of every prompt and head is plain causal attention, written out with its scaling factor, and padding is never written |
| `PidMap.TileHasPid` | fastmoe/layers/stacked_fused_moe.py:62-70 | every tile has a program, a short last group included |
| `PidMap.PidHasTile` | fastmoe/layers/stacked_fused_moe.py:62-70 | and every program its own tile: the grouped numbering is a bijection |
| `MoeAlign.BuffersSuffice` | fastmoe/layers/stacked_fused_moe.py:164-174 | for every routing there is an alignment that meets the contract with less than a block of padding per expert |
| `MoeAlign.LittlePaddingFits` | fastmoe/layers/stacked_fused_moe.py:164-174 | every such alignment fits into the allocated buffers, and has no more blocks than there are routed tokens |
| `FusedMoe.AddBlock` | fastmoe/layers/stacked_fused_moe.py:102-114 | one element of a block product, masks included |
| `FusedMoe.MultiplyTile` | fastmoe/layers/stacked_fused_moe.py:102-117 | the whole product for a tile, padding rows aside |
| `FusedMoe.StoreTileRow` | fastmoe/layers/stacked_fused_moe.py:119-132 | the masked store writes only rows of routed tokens and columns of the matrix |
| `FusedMoe.OwnsTile` | fastmoe/layers/stacked_fused_moe.py:62-83 | which program owns a token and a column |
| `FusedMoe.StoredIsOwned` | fastmoe/layers/stacked_fused_moe.py:128-132 | a program stores exactly what it owns, so every cell is written once and padding never |
| `FusedMoe.Program` | fastmoe/layers/stacked_fused_moe.py:59-132 | a program leaves the right entry in the cells it owns and touches no other |
| `FusedMoe.Launch` | fastmoe/layers/stacked_fused_moe.py:180-217 | all programs together compute every entry of every routed token |
| `FusedMoe.FirstView` | fastmoe/layers/stacked_fused_moe.py:314-317 | the first view reads W1 and then W3 of the packed page |
| `FusedMoe.SecondView` | fastmoe/layers/stacked_fused_moe.py:321-324 | the second view, from row 2H on, reads W2 |
| `FusedMoe.SiluAndMul` | fastmoe/layers/stacked_fused_moe.py:319 | the gated activation of every routed token |
| `FusedMoe.StackFusedMoe` | fastmoe/layers/stacked_fused_moe.py:220-331 | for every routing and every alignment that meets the contract, the output is the weighted sum of W2(silu(W1 x) * W3 x) over the experts of each token, written out entry by entry; it is zero where all W3 are, and the weighted sum of W2(W3 x) with an open gate |
| `FusedMoe.MixtureAdds` | fastmoe/layers/stacked_fused_moe.py:319 | the output is additive in W3, the matrix that is gated |
| `FusedMoe.SumOverExperts` | fastmoe/layers/stacked_fused_moe.py:326-331 | the sum over the places of a token |
| `TensorParallel.RowParallel` | fastmoe/layers/linear.py:619-646 | the all-reduced partial products are the product over the inputs the ranks cover |
| `TensorParallel.ShardActivation` | fastmoe/models/mixtral-offload.py:82-94 | a rank computes its part of the activation |
| `TensorParallel.RanksComputeExpert` | fastmoe/models/mixtral-offload.py:82-114 | if the shares cover all inner units, the ranks together compute the expert |
| `TensorParallel.MixtureParallel` | fastmoe/models/mixtral-offload.py:98-114 | summing the outputs of the ranks gives the layer of the unsharded model |
| `TensorParallel.LosslessIffDivisible` | fastmoe/models/mixtral-offload.py:54-59 | the floor division loses nothing, for every expert, input and activation, if and only if the inner size divides by the number of ranks |
| `TensorParallel.UnevenSharesAreNot` | fastmoe/models/mixtral-offload.py:59 | otherwise an expert, an input and an activation exist that come out wrong |
| `WeightLoading.WeightLoader` | fastmoe/models/mixtral-offload.py:82-96 | one matrix goes to its stretch of the page, the rest of the page stays |
| `WeightLoading.LoadedStays` | fastmoe/models/mixtral-offload.py:88-96 | loading one matrix never overwrites another |
| `WeightLoading.LoadExpert` | fastmoe/models/mixtral-offload.py:82-96 | in whatever order the matrices arrive, the page then holds the shard of the rank as both kernel views read it |
| `ShardedMoe.AllRanks` | fastmoe/models/mixtral-offload.py:82-114 | loading the shards, running the kernels on every rank and adding up the outputs computes the unsharded layer |
| `ShardedMoe.RankOutput` | fastmoe/models/mixtral-offload.py:98-107 | what one rank computes from the pages it loaded |
| `QkvParallel.DivisibleIs` | fastmoe/layers/linear.py:455-465 | the divisions in remainders and quotients, and what the shares of a rank then are |
| `QkvParallel.HeadsPair` | fastmoe/layers/linear.py:457-465 | every local query head meets the key/value head it has in the whole model, divided or replicated |
| `QkvParallel.DividedGroups` | fastmoe/layers/linear.py:463-465 | with divided heads a rank has whole groups |
| `QkvParallel.ReplicatedGroups` | fastmoe/layers/linear.py:459-462 | with replicated heads a group spreads over as many ranks as there are replicas |
| `QkvParallel.ShardFits` | fastmoe/layers/linear.py:525-531 | the loaded shard lies within the projection |
| `QkvParallel.WeightLoader` | fastmoe/layers/linear.py:504-540 | the shard goes to its place, the other projections stay |
| `QkvParallel.LoadPacked` | fastmoe/layers/linear.py:478-502 | a packed checkpoint fills all three places |
| `QkvParallel.HeadRow` | fastmoe/layers/linear.py:523-540 | the row of a local head is the row of its head in the whole model |
| `QkvParallel.RanksAttendAlike` | fastmoe/models/mixtral-offload.py:131-143 | the weights of a local query head and of the key or value head it attends to are those of a pair of the unsharded model |
| `PagedKvCache.AllocationExclusive` | fastmoe/backend/paged_kv_cache.py:38-45 | allocation never gives a block two places |
| `PagedKvCache.Allocation` | fastmoe/backend/paged_kv_cache.py:38-45 | no block is lost if and only if the sequence owned none before |
| `PagedKvCache.ReallocationLoses` | fastmoe/backend/paged_kv_cache.py:44 | allocating again for a sequence that owns blocks loses them |
| `PagedKvCache.FreeingKeeps` | fastmoe/backend/paged_kv_cache.py:47-52 | freeing loses none |
| `PagedKvCache.CellsApart` | fastmoe/backend/paged_kv_cache.py:164-172 | different tokens, of one sequence or of two, have different cells |
| `PagedKvCache.BlockTable.constructor` | fastmoe/backend/paged_kv_cache.py:22-29 | all blocks free, each once |
| `PagedKvCache.BlockTable.AllocateBlocks` | fastmoe/backend/paged_kv_cache.py:31-45 | blocks from the head of the free list or an error; free and owned blocks still make up all blocks if and only if the sequence owned none |
| `PagedKvCache.BlockTable.FreeSequenceBlocks` | fastmoe/backend/paged_kv_cache.py:47-52 | the blocks of the sequence go to the end of the free list |
| `PagedKvCache.PagedKvCache.WriteKv` | fastmoe/backend/paged_kv_cache.py:150-172 | exactly the cells of the written tokens change, tokens behind the last block are dropped |
| `PagedKvCache.PagedKvCache.ReadKv` | fastmoe/backend/paged_kv_cache.py:174-195 | the cells of the first tokens, zeros behind the last block |
| `PagedKvCache.PagedKvCache.Run` | fastmoe/backend/paged_kv_cache.py:31-195 | any run of allocations, segmented writes and frees agrees with a map from sequence to token list, and loses no block while allocations are for sequences without blocks |
| `PagedKvCache.PagedKvCache.ReadBack` | fastmoe/backend/paged_kv_cache.py:174-195 | reading returns what was written last |

## Left out

- HTTP and RPC, tokenizers, chat templates, argument parsing, plots, benchmarks and the copies of the cost model under them.
- Floating point: rounding, half precision, vector lanes and the split of rows into lanes and a tail; the kernels work on
  exact reals.
- Sampling, logits, norms, rotary embedding, gating and renormalisation: parameters of the model, or part of the arbitrary
  layer functions.
- More than one page per layer (`weights_prefetch_num_pages_cpu > 1`): the policy search never returns such a policy, and the
  path is unfinished.
- Contents of the source of weight copies: rows carry the label (layer, row) that the caller asks for. The row arithmetic on
  the cold cache (fastmoe/backend/execution_engine.py:101-103) is not part of this model.
- Timing of decode weight copies on the GPU: the copy runs on `load_stream` and its event is recorded on `prefetch_stream`
  (fastmoe/backend/execution_engine.py:249-252). The order in which copies are issued is proved, and that a slot is awaited
  before it is moved or submitted again.
- Streams other than compute and offload in prefill; hidden-state events.
- The micro-batches of the pipeline are records in a sequence that the engine updates; aliasing between them is not modelled.
- KvPool.DecodeAll: stores layer after layer, where the loop interleaves micro-batches and layers; every store goes to a cell
  of its own, so the order does not show.
- KvPool.ServeAll: keys and values are one list of entries, and what attention produces is a parameter.
- Serving.ServeQueue: the warm-up branch has no capacity check (fastmoe/backend/execution_engine.py:140-141), so that it fits
  is a precondition there; so are a positive generation length and, outside warm-up, as many requests that fit a line alone as
  there are micro-batches.
- Serving.SplitQueue: the same preconditions, since it also states that no micro-batch is empty and that all fit.
- DecodeAttention.DecodeQueue: the same preconditions, and no empty prompt; queries are a function of the request, keys and
  values parts of one entry. The prefill kernel reads the prompts before they are stored and is not joined to the pool.
- ExecutionEngine.ExecutionEngine.PrefetchExperts: the rows copied are those of the layer asked for, by label.
- ExecutionEngine.ExecutionEngine.CopyToPinTask: the same; its row arithmetic on the cold cache is left out.
- ExecutionEngine.ExecutionEngine.Reset: events and the page pointers of CPU and pinned memory, which are constant here, are
  not part of the engine of the model, and clearing the pool is `KvPool.TokenToKVPool.Clear`.
- ExpertReallocation.ExpertMover.constructor: the loaded cache and index map are given and not built; building them is
  `ExecutionEngine.ExecutionEngine.InitGpuExperts`.
- ExpertReallocation.ExpertMover.MoveExpertToGpu: copies count as complete when they are issued, and the weights of an expert
  that is not stored on the CPU are those of the model; the random placeholder weights are not modelled. After a move to the
  CPU the index map holds a negative number, and nothing is claimed about kernels that read it.
- The queue, priorities, cancellation and atomic batches of `ReallocationManager`; `sync_with_experts_mapping`; access times.
- Optimizer.SolveLp: the solver is replaced by the closed form of the optimum, in exact reals without tolerances; decode stage
  and attention on the CPU only. Rates and head counts must be positive, generation length at least 2.
- PolicySearch.Solve: decode stage only, not the prefill stage that a caller may select; the micro-batch size and number that
  a caller fixes must be positive.
- `moe_align_block_size` and `topk_softmax` are external: the alignment is a contract, with a reference alignment that shows
  it can be met; routing is arbitrary.
- Programs of a kernel launch and threads run one after the other; each is proved to write only what it owns. Cells of the
  per-thread attention buffer are addressed as rows and columns.
- FlashAttention.CpuFlashDecodeGqa: windows are not empty, as lengths include at least one token.
- QkvParallel.HeadsPair: query heads are a multiple of the key/value heads, as in grouped attention; the layer does not check
  that (fastmoe/layers/linear.py:457-465).
- QkvParallel.DividedGroups: the same.
- QkvParallel.RanksAttendAlike: the same.
- Biases and quantised packing in the linear layers; ranks add up their outputs in order.
- ShardedMoe.AllRanks: even shares; `TensorParallel.LosslessIffDivisible` has the other case. Pages are in expert order.
- PagedKvCache.PagedKvCache.Run: one layer, since the GPU cache has no layer dimension while block tables are per layer
  (fastmoe/backend/paged_kv_cache.py:100-104 and 129-132); `swap_blocks`, `load_blocks`, CPU block tables, memory statistics
  and the power-of-two check of the block size are not modelled.
- `token_attention.py`, the paged cache inside the engine, DBRX and Phi variants.
