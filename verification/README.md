# DiSpec in Dafny

DiSpec serves language models through a paged key-value cache, continuous batching, chunked prefill, prefix
reuse, speculative decoding, separate prefill and decode workers, captured decode graphs and a fused attention
kernel. Each of these is a way to do less work, and each is meant to change nothing about the tokens that come
out. This project models the engine's logic and proves that.

The network is abstract: a `Net` is an embedding, a list of layers (each a query and key-value projection that
depends on the position, an attention over the keys and values so far, and the rest of the layer), a final norm
and an output head, all arbitrary functions over `real` vectors. `Reference` computes every position of a
sequence from all tokens before it, with no cache. `Reference.Generate` is the greedy loop over it and
`Decoding.Decode` the loop for any sampling parameters. Everything below is compared with these.

The modules, from the bottom up:

- `Reference`, `Decoding`: what is to be computed. `DecodingLaw`: its probabilities.
- `BlockPool`, `BlockAllocator`, `PoolRuns`: the block pool as a value, as the object the engines hold, and over
  whole runs.
- `PagedStore`, `KVCache`, `Portable`: slots of the paged cache, the cache itself, contiguous copies of it.
- `RaggedForward`, `ModelRunner`, `SingleSequence`: one forward over a mixed batch, and the runner's two paths.
- `Softmax`, `TritonAttn`, `CudaGraph`: attention by softmax, the online kernel, the captured decode graph.
- `PrefixCaching`, `PrefixChains`, `Seating`, `SingleEngine`: the prefix cache, what eviction does to its chains of
  entries, and the single-sequence engine.
- `Distributions`, `Sampling`, `SamplingLaw`, `Chance`: filtering, what can be drawn and with what odds, and programs
  that draw at random, read either as a run on given choices or as an expectation.
- `Rejection`, `SpeculativeLaw`, `Speculative`: the acceptance test, the law of speculation, the engine.
- `SchedulerState`, `SchedulerInvariant`, `SchedulerStep`, `SchedulerBatch`, `SchedulerRaise`, `SchedulerRuns`,
  `SchedulerLiveness`, `SchedulerBudget`, `RaisingRuns`, `SharedParams`, `Scheduler`: one scheduling step as a
  function on states, what it keeps, when it raises and what it then leaves, whole runs, progress, the prefill
  budget, runs that raise, the sampling parameters a batch shares, the engine.
- `Disaggregated`, `Pipeline`: the two stages, and their processes and queues as interleaved steps.
- `Transfer`, `Escalation`: key-value caches mapped from one model to another.
- `Server`, `Streaming`, `Autoscale`: the request server, the text it streams, and the replica controller.

Objects whose methods update them in place (block manager, cache, runner, graph decoder, prefix cache, engines,
workers, autoscaler) are classes. Their methods are proved against functions on values, and the theorems are
about those functions. The server and the process pipeline are state machines whose steps are what one lock
region or one queue operation does.

## What the proofs need

- Prompts are not empty and `num_speculative_tokens` is at least one. With none, the branch at
  dispec/spec/speculative.py:141-146 does not describe what has been cached.
- `exp` is positive and turns sums into products, wherever softmax is opened up (kernel, graph, sampling).
- Distinct block-aligned prefixes have distinct rolling hashes (`PrefixCaching.CollisionFree`), as they do if hashing
  a pair never collides (`PrefixCaching.InjectiveIsCollisionFree`). The cache compares keys only,
  dispec/kv/prefix_cache.py:39-50.
- A request of the batching engine has a prompt, and samples greedily or from a non-empty vocabulary. Where outputs
  are compared with solo greedy generation, all requests are greedy and a prefix handed in is exact. Everything else
  about the scheduler and the server (accounting, starvation, order, when a step raises, liveness, completion exactly
  once) holds for any sampling parameters, any well-shaped prefix and any detokenizer.

## Where the code does less than it seems to promise

- `fork` never copies a block. A child shares the parent's partly filled last block and writes into it, and at a block
  boundary it writes into a block the parent has reserved (`PoolRuns.ForkIsolatesIff`, `PoolRuns.ReserveDefeatsFork`,
  `PoolRuns.ForkSharesReserved`). Only a parent without reserved blocks is left alone at every block boundary
  (`PoolRuns.ForkIsolatesAtBoundary`). A second table under an id that has one loses references
  (`BlockPool.ForkAccountedIff`, `PoolRuns.ForkOntoTable`).
- `reserve` does not ensure capacity for `append_token`, which takes another free block at every block boundary
  (`PoolRuns.ReservedAppendsIff`). Appending the one token reserved for can raise (`PoolRuns.ReservedAppendRaises`).
- A scheduling step raises when more running requests stand at a block boundary than blocks are free
  (`SchedulerRaise.StepRaisesIff`): admission reserves the prompt only. The requests decoded before the failing one
  then keep room for a token that is never written, unless the first running request is the one that fails
  (`SchedulerRaise.InterruptedUnchangedIff`), and stepping again raises again, for ever
  (`SchedulerRuns.RaiseIsForGood`). Two one-token requests are enough (`RaisingRuns.RaisingRun`).
- `chunk_size` caps each request's chunk and not the step, as soon as the token budget is larger
  (`SchedulerBudget.ChunkCapsStepIff`).
- A greedy request behind a sampled one is sampled with the other's parameters. It still gets its own tokens if and
  only if those are greedy too, or keep a single token because top_p is at most zero, or a step has room for one
  token only (`SharedParams.FirstParamsDecide`, `SharedParams.GreedyBehindSampled`).
- Eviction can drop a block's entry and keep the entry of the block after it (`PrefixChains.EvictingOneOrphans`);
  exactly when is `PrefixChains.EvictionClosedIff`, and it takes a tie in the times of use
  (`PrefixChains.BrokenOnlyByTies`). `match` cannot reach such an entry until the first is inserted again
  (`PrefixChains.OrphanUnreached`, `PrefixChains.RootedAfterInsertIff`). What is cached stays correct.
- A shutdown whose join times out can lose jobs (`Pipeline.TimeOutMayLose`); which shutdowns do is
  `Pipeline.ShutdownLosesNothingIff`. A worker whose pool is too small for a job exits with it, and that is the only
  way a worker fails (`Pipeline.FittingJobsNeverFail`). `submit` still accepts jobs after a shutdown, and none of them
  is ever answered (`Pipeline.LateIsLost`).
- Streamed pieces make up the text if and only if decoding more tokens never changes earlier text
  (`Streaming.StreamsWholeIff`, `Streaming.RewritingDetokenizer`). A tokenizer that decodes part of a character to a
  replacement character does change it. Completion does not depend on it (`Server.CompletedExactlyOnce`).
- When a step raises, the server's thread ends and the callers still waiting are never told
  (`Server.EndedForGood`).
- A one-token prompt cannot be escalated: nothing comes before its last token, and an empty prefix is refused
  (dispec/sched/scheduler.py:103-112).
- The autoscaler's two thresholds alone do not keep it from flapping (`Autoscale.FlappingLoad`). Whether they do
  depends on which whole numbers of sequences lie between them at each count (`Autoscale.SteadyIff`,
  `Autoscale.SettlesIff`); a factor of two, as in the defaults, is enough (`Autoscale.TwofoldGapSuffices`).
- Where the target's vocabulary is padded further than the draft's, speculation cannot emit the ids in between. It gives
  the target's own greedy generation if and only if that has none of them (`Speculative.ClippingHarmlessIff`).
- The speculative engine allocates in both pools before its `try` block, dispec/spec/speculative.py:95-97. Nothing
  leaks, because the pools have equal size and the second allocation fails only if the first does
  (`Speculative.SpeculativeEngine.Start`).

## Model

| member | source | states |
|---|---|---|
| `Reference.Causal` | dispec/engine/model_runner.py:188-220 | a row of the full forward pass depends only on the tokens up to it, in every layer; everything cached rests on this |
| `Reference.ArgMaxIsFirstMaximum` | dispec/sampling.py:70-73 | greedy sampling takes the first index of a largest logit |
| `Reference.OnPathIsPrefix` | dispec/engine/engine.py:79-99 | an output whose every token is the argmax after those before it, and that did not have to stop earlier, is a prefix of the whole greedy generation, and all of it once it must stop |
| `Reference.GenerateIsWhole` | dispec/engine/engine.py:77-99 | greedy generation gives at least one token and at most the limit, has the end-of-sequence token nowhere before its last token, and is shorter than the limit only if it ends with it |
| `Decoding.GreedyDecode` | dispec/engine/engine.py:77-99 | token-by-token decoding with greedy parameters is the reference's greedy generation, whatever the random choices |
| `Decoding.DecodeIsWhole` | dispec/engine/engine.py:77-99 | the same ends for decoding with any sampling parameters and random choices |
| `Decoding.DecodeFromNucleus` | dispec/engine/engine.py:77-99 | whatever the random choices, no token of a sampled output is one that top-k or top-p excludes at its position |
| `Decoding.SampleToken` | dispec/sampling.py:70-75 | at temperature 0 a largest logit, and no random choice is used up; otherwise one draw decides, and it is a token of the nucleus of the largest logits |
| `Decoding.ChoiceIsDrawn` | dispec/sampling.py:62-75 | the token chosen is the first of the largest logits at temperature 0, and otherwise one that top-k and top-p leave |
| `DecodingLaw.ContinueIsSampling` | dispec/sampling.py:62-75 | sampled decoding with given random choices is a run of the program that draws each token from the model's distribution |
| `DecodingLaw.SpeculationHasDecodingLaw` | dispec/spec/speculative.py:105-157 | for every value f of the output, the expectation under speculation with any draft model equals that under the program whose runs are ordinary sampled decoding |
| `SingleSequence.BlocksNeededLeast` | dispec/kv/block_manager.py:49-50 | `blocks_needed` is the least number of blocks that covers the tokens |
| `BlockPool.TakeBlocksDistinct` | dispec/kv/block_manager.py:59-64 | blocks taken are distinct, were free, and are no longer free |
| `BlockPool.AllocateAccounted` | dispec/kv/block_manager.py:66-86 | a successful allocation, with or without adopted blocks, keeps the free list and the counted blocks a partition of the pool and every count exact |
| `BlockPool.AppendTokenAccounted` | dispec/kv/block_manager.py:98-106 | the same for the block a decode step may take |
| `BlockPool.ReserveAccounted` | dispec/kv/block_manager.py:108-116 | the same for reserved blocks |
| `BlockPool.TruncateAccounted` | dispec/kv/block_manager.py:128-141 | the trailing blocks can all be given back, and the counts stay exact |
| `BlockPool.FreeAccounted` | dispec/kv/block_manager.py:143-152 | a table's blocks can all be given back, and the counts stay exact |
| `BlockPool.PinAccounted` | dispec/kv/block_manager.py:88-90 | a reference taken outside the tables is counted |
| `BlockPool.ReleaseAccounted` | dispec/kv/block_manager.py:92-96 | a reference that is held can be given back, and the block is free exactly when it was the last |
| `BlockPool.ForkAccountedIff` | dispec/kv/block_manager.py:119-126 | forking keeps the counts exact if and only if the child's id has no table yet, or an empty one: an existing table is overwritten without its references being given back |
| `PoolRuns.EveryRunIsExact` | dispec/kv/block_manager.py:59-152 | after any sequence of calls, each block is free once or counted with exactly as many references as tables and outside holders have, and when nobody holds a block any more all are free |
| `PoolRuns.ForkIsolatesIff` | dispec/kv/block_manager.py:98-126 | whatever the parent has reserved, the first token appended after a fork goes to a block the parent does not have if and only if the parent has no block at the position of that token: the fork called copy-on-write never copies |
| `PoolRuns.ForkIsolatesAtBoundary` | dispec/kv/block_manager.py:98-126 | for a parent that has only the blocks its tokens need, if and only if the fork was at a block boundary |
| `PoolRuns.ReserveDefeatsFork` | dispec/kv/block_manager.py:108-126 | after room has been reserved in the parent, the first token appended to a fork of it always goes to a block of the parent |
| `PoolRuns.ForkSharesReserved` | dispec/kv/block_manager.py:98-126 | for every block size, a run of allocate and reserve after which the fork is at a block boundary and its next token still goes to the block the parent reserved |
| `PoolRuns.ForkOntoTable` | dispec/kv/block_manager.py:119-126 | a run of allocations after which forking onto an id that has a table breaks the accounting |
| `PoolRuns.ReservedAppendsIff` | dispec/kv/block_manager.py:98-116 | after room for n tokens has been reserved, appending n tokens succeeds if and only if the free blocks before the reservation cover it and the blocks the tokens need once more; if it succeeds it would have without reserving |
| `PoolRuns.ReservedAppendRaises` | dispec/kv/block_manager.py:98-116 | for every block size, a run of allocate and reserve after which appending the one token that was reserved for raises |
| `SingleSequence.AppendTokenGrows` | dispec/kv/block_manager.py:98-106 | for tables with or without reserved blocks, appending raises if and only if the tokens fill whole blocks and none is free; otherwise the table keeps its blocks, takes one more exactly at a block boundary, and changes no other block's count; a table with exactly the blocks its tokens need keeps having them |
| `SingleSequence.AllocateSeats` | dispec/kv/block_manager.py:66-86 | allocating raises if and only if the blocks not adopted exceed the free ones; otherwise the table starts with the adopted blocks and owns the others alone |
| `BlockAllocator.BlockManager.Allocate` | dispec/kv/block_manager.py:66-86 | the method computes the specified state; an error leaves the state unchanged |
| `BlockAllocator.BlockManager.AppendToken` | dispec/kv/block_manager.py:98-106 | the method computes the specified state and returns the block and offset of the new token's position; an error leaves the state unchanged |
| `BlockAllocator.BlockManager.Reserve` | dispec/kv/block_manager.py:108-116 | the method computes the specified state; an error leaves the state unchanged |
| `BlockAllocator.BlockManager.Fork` | dispec/kv/block_manager.py:119-126 | the method computes the specified state |
| `BlockAllocator.BlockManager.Truncate` | dispec/kv/block_manager.py:128-141 | the loop of single releases computes the specified state |
| `BlockAllocator.BlockManager.Free` | dispec/kv/block_manager.py:143-152 | the loop of single releases computes the specified state; an unknown id changes nothing |
| `BlockAllocator.BlockManager.Release` | dispec/kv/block_manager.py:92-96 | the block returns to the end of the free list when its last reference goes |
| `PagedStore.SameSlot` | dispec/kv/paged_cache.py:75-84 | two positions share a flat slot if and only if they sit at the same offset of the same physical block |
| `PagedStore.ScatterAt` | dispec/kv/paged_cache.py:61-68 | after a write to distinct slots each slot holds its own row |
| `PagedStore.ScatterElsewhere` | dispec/kv/paged_cache.py:61-68 | a write changes no other slot |
| `KVCache.PagedKVCache.Write` | dispec/kv/paged_cache.py:61-68 | in place, one layer's slots receive the rows and nothing else changes |
| `KVCache.PagedKVCache.GatherSlots` | dispec/kv/paged_cache.py:70-72 | the rows of the given slots, in order |
| `KVCache.PagedKVCache.ExportContiguous` | dispec/kv/paged_cache.py:87-90 | all layers' rows of a sequence's first n positions |
| `KVCache.PagedKVCache.ImportContiguous` | dispec/kv/paged_cache.py:92-96 | in place, the rows land in the slots of the receiving table's positions, in all layers |
| `Portable.ExportIsRef` | dispec/kv/paged_cache.py:87-90 | what a sequence that is cached exports is what the reference computes for its tokens |
| `Portable.ImportHolds` | dispec/kv/paged_cache.py:92-96 | importing the reference's rows caches those tokens in whatever distinct blocks were given, and touches no other slot |
| `Portable.ExportOfImport` | dispec/kv/paged_cache.py:87-96 | export undoes import, for any contiguous cache and any distinct blocks |
| `RaggedForward.WriteSlotsDistinct` | dispec/engine/model_runner.py:148 | sequences that own the blocks they write to write no slot twice in one batch |
| `RaggedForward.OwnBlocksNonAliasing` | dispec/engine/model_runner.py:148 | such a batch writes no slot that holds another sequence's or an older position |
| `RaggedForward.WrittenIsRef` | dispec/engine/model_runner.py:145-148 | after a layer's writes the whole context of every sequence in the batch is in that layer's row of the cache |
| `RaggedForward.ContextIsRef` | dispec/engine/model_runner.py:164-170 | a fresh prefill's own rows and a gathered context are the same keys and values |
| `RaggedForward.ForwardIsRef` | dispec/engine/model_runner.py:188-220 | one forward over any mix of decode rows, chunks and fresh prefills gives every row the hidden state of the full recomputation, caches every sequence's new positions, and touches no other slot |
| `RaggedForward.LastRowLogits` | dispec/sched/scheduler.py:203-214 | the logits of the last flat row of each sequence are the reference's next-token logits of that sequence |
| `SingleSequence.OneForwardIsRef` | dispec/engine/model_runner.py:188-220 | the one-sequence case: every new row gives the logits after its own token |
| `ModelRunner.Runner.SlotTable` | dispec/engine/model_runner.py:201-212 | row i of the padded slot table starts with the context slots of sequence i |
| `ModelRunner.Runner.AttendRagged` | dispec/engine/model_runner.py:160-185 | the loop over sequences, with its running offset, computes the batch attention |
| `ModelRunner.Runner.AttendDecode` | dispec/engine/model_runner.py:150-158 | the fused path of an all-decode step computes the same as the loop over sequences |
| `ModelRunner.Runner.ForwardLayer` | dispec/engine/model_runner.py:127-185 | one layer updates its row of the cache in place and returns the next residual rows |
| `ModelRunner.Runner.Forward` | dispec/engine/model_runner.py:188-220 | hidden states and cache contents after the forward, the same for the native and the fused path |
| `Softmax.AttentionIsMean` | dispec/engine/model_runner.py:160-185 | a query head's attention is the mean of its KV head's values under the only weights that add up to one and have the odds of the exponentials of the scaled products with the keys; consecutive query heads share a KV head |
| `TritonAttn.LaneSumLive` | dispec/engine/triton_attn.py:78-91 | masked lanes of a tile add nothing to the denominator |
| `TritonAttn.TileStep` | dispec/engine/triton_attn.py:78-92 | one tile keeps the loop invariant of maximum, denominator and accumulator across the rescaling |
| `TritonAttn.RunningIsAttention` | dispec/engine/triton_attn.py:94-95 | dividing the accumulator by the denominator at the end is softmax attention |
| `TritonAttn.Program` | dispec/engine/triton_attn.py:60-95 | for any context length from 1 up and any tile size, the online softmax of one row and query head is textbook attention over the row's slots, with the query head's key-value head |
| `TritonAttn.BatchedPagedDecode` | dispec/engine/triton_attn.py:98-116 | every row and head of the launch, whatever pads the slot table |
| `CudaGraph.SmallestFitIsSmallest` | dispec/engine/cuda_graph.py:103-108 | the bucket taken is the smallest that fits |
| `CudaGraph.MaskedAttendIsAttend` | dispec/engine/cuda_graph.py:70-79 | masked lanes contribute nothing, whatever the slots they point at hold |
| `CudaGraph.CudaGraphDecoder.Replay` | dispec/engine/cuda_graph.py:48-79 | the captured layers compute what the eager runner does for one new token, and leave the same cache |
| `CudaGraph.CudaGraphDecoder.Decode` | dispec/engine/cuda_graph.py:103-117 | for any context up to the largest bucket, whatever earlier replays left in the buffers, logits and cache are those of the eager runner |
| `PrefixCaching.PrefixCache.HashBlocks` | dispec/kv/prefix_cache.py:29-37 | the keys of a prompt's full blocks, each over all tokens up to its end |
| `PrefixCaching.InjectiveIsCollisionFree` | dispec/kv/prefix_cache.py:29-37 | if hashing a pair never collides and never gives the initial value, distinct block-aligned prefixes have distinct keys |
| `PrefixCaching.PrefixCache.Match` | dispec/kv/prefix_cache.py:39-50 | the blocks of the longest run of known leading keys; each entry found is touched, none is added or removed |
| `PrefixCaching.PrefixCache.Insert` | dispec/kv/prefix_cache.py:52-62 | pins each unknown full block once and touches the known ones |
| `PrefixCaching.PrefixCache.Evict` | dispec/kv/prefix_cache.py:64-70 | drops that many least recently used entries and gives their references back; counts stay exact and every remaining entry still holds its prefix |
| `PrefixCaching.MatchRunFinds` | dispec/kv/prefix_cache.py:39-50 | every block found has an entry under the prompt's key at that place, and the run ends only where the key is unknown |
| `PrefixCaching.SharedBlocksReused` | dispec/kv/prefix_cache.py:39-62 | a prompt that shares its first k blocks with an inserted one reuses all of them that leave its last token to prefill |
| `PrefixCaching.InsertToRegistered` | dispec/kv/prefix_cache.py:52-62 | offering a cached sequence's full blocks keeps every entry's block holding exactly the keys and values of its key's prefix |
| `PrefixCaching.MatchedHolds` | dispec/kv/prefix_cache.py:39-50 | without hash collisions the blocks found hold the prompt's own leading tokens |
| `PrefixCaching.NodesUntouched` | dispec/engine/model_runner.py:148 | writes into blocks the cache has not pinned leave every entry as it was |
| `PrefixCaching.VictimsOldest` | dispec/kv/prefix_cache.py:64-70 | what is evicted was used no later than anything that stays, and nothing else is dropped |
| `PrefixChains.InsertKeepsClosed` | dispec/kv/prefix_cache.py:52-62 | if every entry's parent (the prefix one block shorter) has an entry, the same holds after inserting any prompt |
| `PrefixChains.EvictionClosedIff` | dispec/kv/prefix_cache.py:64-70 | evicting n entries from such a cache leaves every entry's parent in place if and only if no victim has a longer prefix among the entries that stay |
| `PrefixChains.EvictingOneOrphans` | dispec/kv/prefix_cache.py:52-70 | after inserting one prompt of two blocks, `evict(1)` drops the first block's entry and keeps the second's, whatever the tokens, hash and block size |
| `PrefixChains.MatchKeepsAged` | dispec/kv/prefix_cache.py:39-50 | a lookup keeps every entry used no later than its parent |
| `PrefixChains.InsertKeepsAged` | dispec/kv/prefix_cache.py:52-62 | and so does an insertion |
| `PrefixChains.BrokenOnlyByTies` | dispec/kv/prefix_cache.py:64-70 | a chain breaks only where eviction stops between two entries last used at the same moment: some entry goes whose child, used exactly then too, stays |
| `PrefixChains.OrphanUnreached` | dispec/kv/prefix_cache.py:39-50 | no lookup of any prompt finds or touches an entry whose parent is missing |
| `PrefixChains.RootedAfterInsertIff` | dispec/kv/prefix_cache.py:52-62 | an insertion gives such an entry its parent back if and only if the inserted prompt starts with the parent's prefix |
| `Seating.ForwardSeats` | dispec/engine/engine.py:63-72 | forwarding the tokens not yet cached caches the whole sequence, gives its next-token logits and changes no pinned block |
| `Seating.AllocateReadies` | dispec/engine/engine.py:55-62 | adopting cached blocks leaves exactly the uncovered tokens to forward; it raises only if adopted and free blocks do not cover the prompt |
| `SingleEngine.LLMEngine.Adopt` | dispec/engine/engine.py:55-61 | the longest run of cached blocks that leaves the prompt's last token to prefill, also for a fully cached block-aligned prompt |
| `SingleEngine.LLMEngine.DecodeStep` | dispec/engine/engine.py:82-96 | one decode step, by graph or eagerly, gives the reference's next logits; it raises only at a block boundary with no free block |
| `SingleEngine.LLMEngine.Generate` | dispec/engine/engine.py:46-101 | over any history of calls and evictions, with or without prefix cache, graph and fused kernel, the output is that of decoding with full recomputation for the same random choices, at the limit or ended by the end-of-sequence token and never past it; the tokens prefilled are those no cached block covers; it raises only if the free blocks do not cover the longest possible context |
| `SingleEngine.LLMEngine.Evict` | dispec/kv/prefix_cache.py:64-70 | evicting between calls keeps the engine's invariant |
| `Sampling.SortIndicesOrders` | dispec/sampling.py:37 | sorting lists every token once, from the largest logit to the smallest |
| `Sampling.TopKKeepsLargest` | dispec/sampling.py:31-34 | top-k keeps exactly the tokens whose logit is at least the k-th largest, ties included |
| `Sampling.RemovedIsSuffix` | dispec/sampling.py:38-42 | in sorted order the kept tokens are a non-empty prefix whose mass is at least top_p and, without its last member, at most top_p |
| `Sampling.ScatterFlagsAt` | dispec/sampling.py:43 | scattering through the sort permutation puts each removal flag on its own token |
| `Sampling.TopPKeepsNucleus` | dispec/sampling.py:36-45 | the filtered logits keep exactly that nucleus, whatever order ties are sorted in |
| `Sampling.TopPKeepsTop` | dispec/sampling.py:41-44 | whatever top_p is, a largest logit survives |
| `Sampling.OddsKept` | dispec/sampling.py:44-59 | kept tokens keep their relative odds |
| `Sampling.LogitsToProbsIsDistribution` | dispec/sampling.py:48-59 | for all parameters the result is a probability distribution |
| `SamplingLaw.TopKIsLargest` | dispec/sampling.py:31-34 | top-k leaves a token if and only if fewer than k tokens have a larger logit |
| `SamplingLaw.TopPIsNucleus` | dispec/sampling.py:36-45 | top-p leaves a token if and only if it is the first in descending order or the tokens before it have at most a share top_p of the weight, for every top_p |
| `SamplingLaw.ProbsAre` | dispec/sampling.py:48-59 | for every temperature above 0, top-k and top-p, in terms of the logits alone: a token of the nucleus of the k largest logits has exactly its share of the nucleus's exponentials of logit over temperature, and any other token probability zero |
| `SamplingLaw.DrawnFromNucleus` | dispec/sampling.py:48-59 | a token has positive probability if and only if it is among the k largest logits, ties included, and in the nucleus of those; two such tokens have the odds of their exponentials |
| `SamplingLaw.GreedyIsCertain` | dispec/sampling.py:48-57 | at temperature 0 the first of the largest logits has probability one and every other token zero |
| `Rejection.RejectionSample` | dispec/spec/rejection.py:25-54 | the loop's output is the run, on the generator's choices, of the verification program; it keeps an accepted prefix of the draft and one token more |
| `Rejection.OneTokenLossless` | dispec/spec/rejection.py:39-52 | drafting from any q, accepting and correcting gives every value of the token the expectation it has under the target's p |
| `Rejection.FallbackHasNoChance` | dispec/spec/rejection.py:48-50 | where the residual is empty every token is accepted with certainty, so the fallback distribution is never drawn from |
| `Rejection.GreedyVerifying` | dispec/spec/rejection.py:37-54 | against one-hot target rows, the tokens emitted are the target's choices, whatever the draft's distributions and the random choices |
| `SpeculativeLaw.IterationIsFair` | dispec/spec/speculative.py:105-137 | anything whose value is the mean of its values one target token later is worth the same after one iteration of K drafted tokens with all accept and reject outcomes |
| `SpeculativeLaw.SpeculationIsLossless` | dispec/spec/speculative.py:105-157 | over all iterations, limits and end-of-sequence tokens, every value of the output has the expectation it has under target sampling one token at a time |
| `SpeculativeLaw.SpeculationProbability` | dispec/spec/speculative.py:105-157 | for every limit above zero and end-of-sequence token, a string that ends where an output should is produced with exactly the product of the target's conditional probabilities, and any other string with probability zero |
| `SpeculativeLaw.SpeculationIsWhole` | dispec/spec/speculative.py:105-157 | in every run the output is at the limit or ends with the end-of-sequence token, which comes nowhere before |
| `SpeculativeLaw.GreedySpeculation` | dispec/spec/speculative.py:105-157 | with a greedy target the output is the target's greedy generation, for every draft, K and sequence of random choices |
| `Speculative.ReserveReadies` | dispec/spec/speculative.py:71-83 | reserving leaves exactly the blocks the tokens need, and raises only if the whole pool has fewer |
| `Speculative.TruncateAlone` | dispec/kv/block_manager.py:128-141 | rolling back leaves exactly the blocks the remaining tokens need, still holding their keys and values |
| `Speculative.ForwardTokens` | dispec/spec/speculative.py:71-83 | the forward caches the tokens and gives the logits after each; it raises only if the pool is smaller than the context |
| `Speculative.ClipLogits` | dispec/spec/speculative.py:62-69 | clipping to the common vocabulary is a model of its own, with one logit for each common token id: the target's own for that id |
| `Speculative.LawOfEntries` | dispec/spec/speculative.py:62-69 | the distribution sampled from is that of any vector with the model's own logits as its entries, one for each common token id |
| `Speculative.ClippedTokens` | dispec/spec/speculative.py:62-69 | each token generated greedily over the common vocabulary is the first of the target's own largest logits among the common ids |
| `Speculative.ClippingHarmlessIff` | dispec/spec/speculative.py:62-69 | that is the target's own greedy generation if and only if the latter has common token ids only |
| `Speculative.SpeculativeEngine.constructor` | dispec/spec/speculative.py:46-65 | the common vocabulary is the smaller of the two models' |
| `Speculative.SpeculativeEngine.Propose` | dispec/spec/speculative.py:106-117 | K tokens drawn from the draft model's own conditionals, the first K-1 of them cached |
| `Speculative.SpeculativeEngine.Verify` | dispec/spec/speculative.py:119-123 | the target's conditionals at all K positions and the bonus position from one forward |
| `Speculative.SpeculativeEngine.ResyncTarget` | dispec/spec/speculative.py:133-137 | the target cache holds exactly the prompt and what has been emitted, and the carried distribution is the one after it |
| `Speculative.SpeculativeEngine.ResyncDraft` | dispec/spec/speculative.py:138-149 | the same for the draft cache, in both the partly and the fully accepted case |
| `Speculative.SpeculativeEngine.Iterate` | dispec/spec/speculative.py:105-149 | one iteration keeps both caches at prompt and output, and emits what the drafting program emits on the same random choices |
| `Speculative.SpeculativeEngine.Emit` | dispec/spec/speculative.py:151-157 | tokens are appended up to the limit or the end-of-sequence token, inclusive: the output stays within the limit, has the end-of-sequence token nowhere before its end, and emitting stops exactly when it is whole |
| `Speculative.SpeculativeEngine.Start` | dispec/spec/speculative.py:95-102 | both caches hold the prompt; if the pools are too small nothing is left allocated |
| `Speculative.SpeculativeEngine.Generate` | dispec/spec/speculative.py:86-160 | for all parameters the output is a run of the speculation program on the generator's choices, hence for greedy ones the target's greedy generation over the common vocabulary; it is whole, or empty if no token was asked for; at most one iteration per output token, and the counts of accepted tokens and iterations add up to the output but for what the end cuts off; it raises only if the pool is smaller than prompt, output and K need; on every exit both pools are all free |
| `Scheduler.ContinuousBatchingEngine.AddRequest` | dispec/sched/scheduler.py:85-112 | a new id's request waits with the prompt, limit, parameters, end-of-sequence token, priority and prefix given, and every other request is unchanged; a prefix of the wrong shape or length is refused and changes nothing; the invariant is kept for any prompt and parameters there is something to sample for |
| `Scheduler.ContinuousBatchingEngine.DecodePhase` | dispec/sched/scheduler.py:129-147 | every running request gets one row, in order; if the pool raises, the rows before the failing request stay reserved, exactly as specified |
| `Scheduler.ContinuousBatchingEngine.AdmitRequest` | dispec/sched/scheduler.py:159-173 | allocates for the whole prompt and imports a given prefix, or changes nothing |
| `Scheduler.ContinuousBatchingEngine.ChunkRequest` | dispec/sched/scheduler.py:174-197 | appends the next chunk's rows and moves the request on |
| `Scheduler.ContinuousBatchingEngine.PrefillPhase` | dispec/sched/scheduler.py:149-197 | prompts in progress first, then the waiting ones by priority and age, while the budget lasts and until one cannot be admitted |
| `Scheduler.ContinuousBatchingEngine.ForwardFlat` | dispec/sched/scheduler.py:202-208 | one forward over the whole batch |
| `Scheduler.ContinuousBatchingEngine.SampleRows` | dispec/sched/scheduler.py:213-218 | one token per sampled row, all with one set of parameters |
| `Scheduler.ContinuousBatchingEngine.AppendTokens` | dispec/sched/scheduler.py:220-228 | each token goes to its own request |
| `Scheduler.ContinuousBatchingEngine.Finish` | dispec/sched/scheduler.py:199-232 | forward, sample, append, retire |
| `Scheduler.ContinuousBatchingEngine.Step` | dispec/sched/scheduler.py:116-232 | the method computes the step function on the engine's state and keeps the invariant; when it raises, the state it leaves is the specified one, in which every further step raises too |
| `Scheduler.ContinuousBatchingEngine.Run` | dispec/sched/scheduler.py:240-244 | with enough blocks and steps the loop raises nothing and ends with no work left |
| `SchedulerInvariant.DecodeAllOk` | dispec/sched/scheduler.py:132-147 | through the decode phase every batched row is its request's last output at its own position and slot, in a block no other request has |
| `SchedulerInvariant.AdmitOk` | dispec/sched/scheduler.py:159-173 | admission disturbs no live request, whatever it samples with and whatever prefix it brings; a prefix that is exact is then cached |
| `SchedulerInvariant.PrefillAllOk` | dispec/sched/scheduler.py:155-197 | through the prefill phase the batch stays well formed and within the budget |
| `SchedulerStep.BatchOwnsBlocks` | dispec/sched/scheduler.py:120-197 | no two requests of a batch write to each other's blocks |
| `SchedulerStep.ForwardSettles` | dispec/sched/scheduler.py:202-208 | the forward gives one row per batched token and keeps the cache's shape; where the older positions are cached, all batched tokens then are and nothing else has changed |
| `SchedulerStep.BatchSampled` | dispec/sched/scheduler.py:213-218 | the rows sampled from are those of the running requests, each once and in the order of the batch |
| `SchedulerStep.TokensAreOwn` | dispec/sched/scheduler.py:202-218 | whatever the sampling parameters, where the cache is exact each request's token is picked from the reference's logits after that request's own context |
| `SchedulerStep.ConcludeOk` | dispec/sched/scheduler.py:220-232 | exactly the running requests get one token each, and the finished ones are retired and freed |
| `SchedulerBatch.StepOk` | dispec/sched/scheduler.py:116-232 | every step keeps the invariant: in particular a running request's table accounts for prompt and outputs less one |
| `SchedulerBatch.StepServes` | dispec/sched/scheduler.py:126-197 | for any sampling parameters and prefixes: every running request is decoded in every step and gets one token, a batch never exceeds the token budget, and what is admitted comes before what is not in the order of priority and age |
| `SchedulerBatch.StepChooses` | dispec/sched/scheduler.py:199-228 | the tokens a step appends are the ones the first batched request's parameters and the next random choices pick from each request's own next-token logits |
| `SchedulerRuns.RunsKeep` | dispec/sched/scheduler.py:85-232 | over any arrivals, steps, caught exceptions and collections, with any sampling parameters and well-shaped prefixes: block counts are exact, every request is in the queue of its status, and no more requests run than a step can decode |
| `SchedulerRuns.RunKeepsRequest` | dispec/sched/scheduler.py:85-232 | over every run a request stays known with the settings it came with, and while it waits nothing about it changes |
| `SchedulerRuns.AcceptedIff` | dispec/sched/scheduler.py:97-112 | a request is refused if and only if it brings a prefix that lacks a layer, differs in length between layers, is empty or covers the whole prompt |
| `SchedulerRuns.ArrivalsStay` | dispec/sched/scheduler.py:85-101 | over every run each accepted arrival's request is known under its own id, with the prompt, limit, parameters, end-of-sequence token and priority it arrived with |
| `SchedulerRuns.AdmittedByPriority` | dispec/sched/scheduler.py:149-173 | over every run, of two arrivals that wait at the same time the one that came with the higher priority, or the earlier of two with the same, is never admitted after the other |
| `SchedulerRuns.OutputsEnd` | dispec/sched/scheduler.py:52-57 | over every run, at any sampling parameters, no output goes past its limit or its end-of-sequence token, and a request has finished if and only if its output is at the one or the other |
| `SchedulerRuns.BatchingIsTransparent` | dispec/sched/scheduler.py:85-232 | over any arrivals of greedy requests with exact prefixes, steps, caught exceptions and collections, each request's output is at all times a prefix of its solo greedy generation, and equals it when finished |
| `SchedulerRaise.StepRaisesIff` | dispec/sched/scheduler.py:132-137 | for any sampling parameters and prefixes, a step raises if and only if more running requests stand at a block boundary than there are free blocks |
| `SchedulerRaise.RaiseWedges` | dispec/sched/scheduler.py:132-137 | a step that raises changes only the pool: block counts stay exact and every request keeps its queue and output |
| `SchedulerRaise.InterruptedUnchangedIff` | dispec/sched/scheduler.py:132-137 | it leaves the engine entirely unchanged if and only if the first running request is the one that finds no block; otherwise the requests before it keep room for a token that is never written |
| `SchedulerRuns.RaiseIsForGood` | dispec/sched/scheduler.py:115-137 | after a step has raised, whatever arrives and however often the exception is caught and the engine stepped again, every step raises and no request gets another token |
| `RaisingRuns.RaisingRun` | dispec/sched/scheduler.py:132-137 | two one-token requests arrive at an empty engine and are served one step; the next step raises, and leaves the engine as it was or with room kept for a token that is never written, depending on whether the pool had a third block |
| `SchedulerBudget.PrefillTokensBounded` | dispec/sched/scheduler.py:149-182 | the prompt tokens of a step are at most the budget the running requests leave, and at most `chunk_size` for each prompt advanced |
| `SchedulerBudget.BatchedTogether` | dispec/sched/scheduler.py:149-197 | two prompts that arrive together and fit budget, chunk and pool are batched whole in one step and both sampled from |
| `SchedulerBudget.ChunkCapsStepIff` | dispec/sched/scheduler.py:68-70 | `chunk_size` caps the prompt tokens of every step, from every settled state, if and only if the token budget is no larger than it |
| `SchedulerLiveness.StepProgresses` | dispec/sched/scheduler.py:115-232 | if the pool covers the peaks of the unfinished requests, no step raises, and every step with work reduces the prompt and output tokens left |
| `SchedulerLiveness.RunUntilDoneDrains` | dispec/sched/scheduler.py:237-244 | then `run_until_done` drains all requests within that many steps |
| `SchedulerLiveness.EveryRequestIsServed` | dispec/sched/scheduler.py:237-244 | and, with greedy requests and exact prefixes, every request ends with exactly its solo greedy generation |
| `SharedParams.FirstParamsDecide` | dispec/sched/scheduler.py:217-218 | for every network, fair random choices and settled state, steps led by a request with parameters a give every greedy request its own next token if and only if a is greedy, or its top_p is at most zero, or a step has room for one token only |
| `SharedParams.GreedyBehindSampled` | dispec/sched/scheduler.py:217-218 | otherwise a greedy request that arrives right behind such a request can finish with an output that is not its greedy generation |
| `SharedParams.OnlyTopStays` | dispec/sampling.py:36-45 | with top_p at most zero exactly the first token of the sorted order survives, whichever way ties are ordered |
| `Disaggregated.Stage.PrefillExport` | dispec/workers/disaggregated.py:37-51 | the prompt's exact keys and values and its first token; the blocks are given back |
| `Disaggregated.Stage.DecodeFromKv` | dispec/workers/disaggregated.py:54-75 | from exact keys and values and any first token, decoding goes on as with full recomputation, at the limit or ended by the end-of-sequence token and never past it |
| `Disaggregated.Stage.PrefillThenDecode` | dispec/workers/disaggregated.py:36-75 | the two stages one after the other are single-process decoding with the same random choices, at the limit or ended by the end-of-sequence token and never past it |
| `Disaggregated.Stage.PrefillJob` | dispec/workers/disaggregated.py:97-110 | for any sampling parameters, one turn of the prefill worker is the pipeline step that sends the exact keys and values and a first token chosen by the worker's own next draw, or, only if the pool is too small for the prompt, the one in which the worker fails |
| `Disaggregated.Stage.DecodePayload` | dispec/workers/disaggregated.py:113-128 | for any sampling parameters, one turn of the decode worker on an exact payload is the step that puts full-recompute decoding of the job from that first token on the worker's own next draws, or, only if the pool is too small for its longest context, the one in which the worker fails |
| `Pipeline.StepConserves` | dispec/workers/disaggregated.py:97-158 | at any sampling parameters, every action of either worker, also failing, of the client or the shutdown keeps answers and jobs in flight together equal to the submissions, in order, and everything sent or answered exactly what the workers' draws so far make it |
| `Pipeline.PipelineConserves` | dispec/workers/disaggregated.py:97-158 | the same after every interleaving, from the empty queues on |
| `Pipeline.AnswersAreWhole` | dispec/workers/disaggregated.py:65-128 | at any sampling parameters and after every interleaving, each answer is at the limit or ends with the end-of-sequence token, which comes nowhere before |
| `Pipeline.GreedyAnswers` | dispec/workers/disaggregated.py:79-128 | at temperature 0, the default, the answers after every interleaving are the single-process greedy generations of the first submissions, in order |
| `Pipeline.FittingJobsNeverFail` | dispec/workers/disaggregated.py:94-128 | if the pools cover every submitted job's longest context, no worker fails in any interleaving |
| `Pipeline.ShutdownLosesNothing` | dispec/workers/disaggregated.py:154-158 | a shutdown whose joins complete, with no worker failing, leaves every job submitted before it answered |
| `Pipeline.LateIsLost` | dispec/workers/disaggregated.py:140-158 | from the shutdown on, no job submitted after it is ever answered: answers never outnumber the jobs submitted before |
| `Pipeline.ShutdownLosesNothingIff` | dispec/workers/disaggregated.py:154-158 | also when a join times out: once the decode worker has read its stop message, every job submitted before the shutdown has been answered if and only if the prefill worker had nothing left to do before its own stop message when the decode worker's was sent |
| `Pipeline.LostForGood` | dispec/workers/disaggregated.py:119-128 | what is in flight when the decode worker exits is never answered, however the run goes on |
| `Pipeline.TimeOutMayLose` | dispec/workers/disaggregated.py:154-158 | a run in which a join times out, the stop message overtakes a job, and no continuation whatever answers that job |
| `Transfer.RotatedPair` | dispec/kv/transfer.py:61-80 | applying and stripping turn each pair of components, one from either half, by opposite angles |
| `Transfer.StripOfApply` | dispec/kv/transfer.py:66-80 | stripping an applied rotation, and applying a stripped one, scales each component by its cos squared plus sin squared |
| `Transfer.StripInvertsIff` | dispec/kv/transfer.py:66-80 | stripping inverts applying, for tables with duplicated halves, if and only if every table entry lies on the unit circle |
| `Transfer.FactoredIsDense` | dispec/kv/transfer.py:104-112 | a map kept as two factors gives the same as their product |
| `Transfer.UnitGivesRow` | dispec/kv/transfer.py:104-112 | a map gives zeros its bias and a unit vector that row of its matrix and the bias |
| `Transfer.MapIsAffine` | dispec/kv/transfer.py:104-112 | apart from the bias a map takes sums to sums and multiples to multiples |
| `Transfer.ResidualAdds` | dispec/kv/transfer.py:104-112 | the residual adds the up-projection of the activated down-projection |
| `Transfer.IdentityApplies` | dispec/kv/transfer.py:104-112 | the identity map without residual gives its input back |
| `Transfer.ViewOfFlatten` | dispec/kv/transfer.py:249-250 | flattening a token's heads and viewing them again is the identity |
| `Transfer.DesignAt` | dispec/kv/transfer.py:249 | where each layer, head and component lands in the flattened row |
| `Escalation.Map` | dispec/kv/transfer.py:256-283 | the layer loops compute the specified keys and values |
| `Escalation.MappedKeys` | dispec/kv/transfer.py:243-283 | for any maps and tables: a mapped key with the target's rotation taken out is what the layer's key map makes of the selected source layers' keys with the source's rotation taken out |
| `Escalation.MappedValues` | dispec/kv/transfer.py:243-283 | a mapped value is what the layer's value map makes of the selected source layers' values, without any rotation |
| `Escalation.IdentityTransfer` | dispec/kv/transfer.py:256-283 | with the identity map and equal, invertible rotation tables the mapped cache is the source's |
| `Escalation.PrefillAndMap` | dispec/workers/escalation.py:50-69 | prefills the prompt, maps all but its last token and gives the blocks back, also on failure to allocate |
| `Escalation.LastTokenForwarded` | dispec/sched/scheduler.py:157-197 | a request whose prefix covers all but one prompt token is either left waiting by a step or admitted with exactly one prompt token forwarded, from which it is sampled; nothing is left to prefill |
| `Escalation.EscalationIsTransparent` | dispec/workers/escalation.py:50-77 | a greedy request that brings a prefix mapped by the identity is accepted into any engine of greedy requests; over every run its output is a prefix of its solo generation and equals it when finished; while it waits, all but its last prompt token stay covered |
| `Server.PushText` | dispec/router/server.py:142-148 | what has been pushed makes up the new text if and only if the new text extends the old |
| `Server.ReapDelivers` | dispec/router/server.py:109-148 | for every detokenizer, a reap leaves each request's client with exactly the pieces that one push for each new token sends, and one result or one end of stream once it has finished, none before |
| `Server.IterateConsistent` | dispec/router/server.py:88-148 | an iteration of the background loop, raising or not and whatever the detokenizer, keeps pending ids equal to the unfinished requests and every client given exactly that |
| `Server.ServeIsPlay` | dispec/router/server.py:56-140 | what a submission or an iteration does to the engine is a run of the engine |
| `Server.CompletedExactlyOnce` | dispec/router/server.py:56-148 | for every detokenizer and over any interleaving of submissions, greedy or sampled, and iterations, also when one raises and ends the thread: each submission's request is known with the settings submitted; once finished, which is exactly when its output is whole, its caller has been completed exactly once in the way submitted, by one result or by all pieces and one end mark, and not before; if all are greedy the outputs are their solo generations |
| `Server.EndedForGood` | dispec/router/server.py:88-107 | once the thread has ended, no caller is given anything more, and no pending id leaves, whatever is submitted later |
| `Server.LoopsComplete` | dispec/router/server.py:88-140 | while the pool covers the peaks, a number of iterations known beforehand completes every caller and ends no thread |
| `Server.EveryCallerIsAnswered` | dispec/router/server.py:56-148 | end to end: while the pool covers the peaks, a number of iterations known beforehand gives every submission's caller the whole answer to what was submitted, as one result or as all pieces and one end mark |
| `Streaming.WholeAlongIff` | dispec/router/server.py:142-148 | the pieces streamed for an output make up its text at every token if and only if each token extends the text decoded so far |
| `Streaming.WholeIff` | dispec/router/server.py:142-148 | they do so for every output if and only if decoding more tokens never changes the text of a non-empty output |
| `Streaming.StreamedRun` | dispec/router/server.py:56-148 | every non-empty output is the finished output of a streaming request in some run of the server, which has then been sent exactly those pieces |
| `Streaming.StreamsWholeIff` | dispec/router/server.py:56-148 | in every run of every server, each stream's pieces make up the text of its request's output, if and only if decoding more tokens never changes the text of a non-empty output |
| `Streaming.RewritingDetokenizer` | dispec/router/server.py:142-148 | a run of the server with a detokenizer that rewrites its first letter: the client is sent "a" and "c" for the text "bc" |
| `Autoscale.DraftPoolAutoscaler.Observe` | dispec/router/autoscale.py:30-39 | the count moves as specified and stays between the bounds |
| `Autoscale.TwofoldGapSuffices` | dispec/router/autoscale.py:16-22 | thresholds a factor two apart give hysteresis at every count |
| `Autoscale.GapIsCalm` | dispec/router/autoscale.py:16-22 | hysteresis at the minimum count is enough for that condition |
| `Autoscale.SteadyIff` | dispec/router/autoscale.py:30-39 | no constant number of sequences makes the count go back and forth if and only if, at no count below the maximum, the least number that overloads it leaves one replica more idle and (short of the maximum) not overloaded |
| `Autoscale.FlappingLoad` | dispec/router/autoscale.py:16-39 | a configuration whose thresholds are apart, and four sequences that make it alternate between one and two replicas |
| `Autoscale.SettlesIff` | dispec/router/autoscale.py:30-39 | under every constant load and from every count, the count is fixed after max - min observations, if and only if the same condition holds; otherwise some load makes it alternate for ever |
| `Autoscale.CalmWithoutGap` | dispec/router/autoscale.py:16-22 | it is not necessary: a configuration without it whose overlap of thresholds holds no whole number of sequences |
| `Autoscale.FractionalSteadyIff` | dispec/router/autoscale.py:30-39 | for fractional loads it is necessary and sufficient |
| `Autoscale.SettlesWhenSteady` | dispec/router/autoscale.py:30-39 | under a load that turns no move back the count stays in bounds, moves in one direction only and is fixed after at most max - min observations |

## Left out

- Rounding, number formats, devices, kernel dispatch and fused weight layouts: numbers are `real`.
- A slot's key and value are one pair, written and read together, as every caller of the cache does.
- Model and tokenizer loading, quantization, fused projections, map files and their name-mismatch warning.
- HTTP routes, metrics, dashboards, benchmarks and the load generator.
- Sockets, pickling and shared GPU handles: the transport is a reliable queue of payloads.
- Threads and event loops: a lock region or queue operation is one step, and steps interleave arbitrarily.
- The random generator: its choices are an arbitrary fair oracle, read one after the other.
- Graph capture: its warm-up forwards write to slot 0 of the still empty cache.
- `_paged_decode_kernel`, the one-row form of the batched kernel with the same loop.
- Counters and fields nothing depends on: `num_steps`, `cur_len`, `prefilled`, timings.
- A request is a value stored under its id, and a block table one stored in the pool under its sequence id: a
  reference that another object holds to either is read through that id.
- Trained maps: only the identity map has a meaning to preserve; for other maps the shapes and the loops are
  modelled.
- The key-value map's residual network uses an arbitrary activation function.
- SingleEngine.LLMEngine.Generate: after an error it promises that the engine is valid again, and nothing about the random choices used.
- Disaggregated.Stage.DecodeFromKv: promises nothing about the cache after an error, because the code leaves the table allocated when it raises.
- Disaggregated.Stage.constructor: models with at least one layer; with none the imported cache has no length to read.
- SchedulerRuns.BatchingIsTransparent: greedy requests only, because one set of parameters and one stream of random choices serve a whole batch; what a sampled request gets in a step is `SchedulerBatch.StepChooses`.
- Escalation.EscalationIsTransparent: equal rotation tables and the identity map, the case in which transfer promises to change nothing.
- SharedParams.FirstParamsDecide: the sort keeps ties in index order; under another order a top_p of at most zero keeps another of several equal largest logits (`SharedParams.OnlyTopStays` holds for every order).
- SamplingLaw.TopPIsNucleus: equal logits are taken in the order of their ids; the source's sort may order them otherwise, which matters only for ties at the edge of the nucleus (`Sampling.TopPKeepsNucleus` holds for every order).
