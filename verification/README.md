# Verified models of the unified cache manager

UCM keeps the key/value cache of a language model in an external store, block by block, and loads blocks back instead of
recomputing them. This project models the parts of UCM whose correctness is hardest to see and proves what they promise,
for every input, every run and every reachable state.

| Files | What they model |
|---|---|
| `ChainedHash`, `Dispatch`, `Connector`, `PrefixCache`, `CacheRuns`, `CacheSoundness`, `CacheFailure`, `StaleRecord` | the prefix-cache connector: chained block ids, the match step, the division of a request's blocks into hits, loads and dumps, and whole runs of an engine with a shared store on all tensor-parallel ranks |
| `LayerwiseLoad` | the layer-pipelined loader with its failure tracking |
| `SpscRingQueue`, `HashSet`, `TopNHeap` (with `Bits`, `Residues`) | the shared C++ templates |
| `OnlineSoftmax`, `QueryGrid`, `AttentionLaunch` | the attention kernels: online softmax over tiles and segments, the grid of query blocks, and a whole launch |
| `BlockRelocation`, `KeptBlocks`, `DeltaLoad`, `KvStarPipeline` | the block managers of sparse attention |
| `BlendMask`, `BlendDispatch`, `BlendPlan` | cache blending: token masks and compaction, chunk splitting, and a prompt's way from its match to its loads and rotations |
| `MindieHash`, `CpuList` | the 64-bit hash chain against its Python original, and core lists |

How the source is rendered:

- A method that updates fields or runs a loop is a method here, proved against a specification; pure expressions are
  functions. The concurrent queue and the engine are transition systems, and a run is any sequence of enabled events.
- The store is a map from ids to block contents, and a lookup returns how many leading ids it has. Hashes are functions
  that are assumed not to collide; `PrefixCache.SoundEngineExists` shows that the assumptions can be met.
- The model's forward computation is an arbitrary function of the cells of the earlier tokens. Computing a token reads
  the cells that are in memory at that moment, so a wrong block would be visible in everything computed after it.
- Attention works on real numbers with an arbitrary positive function `e` with e(a + b) = e(a) e(b), and an explicit
  minus infinity for masked scores.
- The three tenths in `compute_topk_len` are exact here. The float product in the source rounds to the exact value
  whenever that is a whole number, so the ceiling is the same.

What the run model (`CacheRuns.Enabled`) takes from the engine around the connector:

- Blocks handed out as hits of the engine's own prefix cache hold the right cells on every rank.
- A block that two running requests share is a hit of the later one, and all its tokens were computed before the step
  that the other request is in. Requests scheduled in the same step that share a block one of them is still computing
  are not covered.

Properties that do not hold for all inputs are stated with the exact condition under which they do:

- A push into a heap after a partial drain can overwrite a live value: `TopNHeap.TopNHeap.Push` says exactly when it does
  not, and `TopNHeap.InterleavedPushLosesValue` is a case where it does.
- Scheduler and worker keep different blocks when a block holds one token or when the prompt is exactly one block
  (`KeptBlocks.KeptBlocksAgree`).
- A prefix hit that goes beyond the first chunk of a prompt, with 16 chunk blocks or more found after it, loads a
  physical block twice (`BlendPlan.LoadsRightIff`); `BlendPlan.LoadsGoWrong` is such a prompt and store.
- The Python hash can return the reserved 0 where the extension returns 1 (`MindieHash.CombineAgree`).
- Rows per program that are not a multiple of the heads per key head are handled twice
  (`QueryGrid.NotDividingOverlaps`).
- Cache blending compacts a batch rightly, and takes the logits of every request from its own last token, exactly when
  every request scheduled before has one token and every new one has chunk metadata
  (`BlendMask.BlendBatch.BlendPass`); `BlendMask.MixedBatchGoesWrong` is a batch with a request that has none. The
  connector hands over chunk metadata exactly for the prompts that blend (`BlendPlan.ServePrompt`).

One property has failing cases and a sufficient condition only. Every run keeps the store sound in which requests start
with the record of their last match and a request whose load failed dumps nothing until it is preempted or finished
(`CacheSoundness.CarefulIsSound`). The connector ensures neither. `wait_for_save` does not look at the reported blocks,
and `CacheFailure.FailedLoadBreaksStore` is a run of a sound engine whose store ends up with a wrong entry. A match that
returns early leaves an older record in place, and `StaleRecord.StaleRecordBreaksStore` is such a run without a failed
load. Whether a given run that breaks one of the conditions does harm depends on what the blocks held before.

## Model

| member | source | states |
|---|---|---|
| CacheSoundness.CacheIsSound | ucm/integration/vllm/ucm_connector.py:403-728 | over every interleaving of arrivals, matches, scheduled steps, block loads, token computations, dumps, samples, preemptions, evictions and ends of any number of requests on all ranks, without a failed load or a stale record: every store entry is the block of exactly the token prefix of its id, every loadable block is what recomputation gives, and a finished step has in memory what computing from scratch would give |
| CacheSoundness.CarefulIsSound | ucm/integration/vllm/ucm_connector.py:403-728 | the same with failed loads, as long as a request with one dumps nothing until it is preempted or finished; memory is then claimed of the requests without one |
| CacheSoundness.EventKeeps | ucm/integration/vllm/ucm_connector.py:595-728 | each single event, of whatever kind, keeps the invariant when dumps are of requests without a failed load and starts have a fresh record, and a computing step always has a block to write to |
| CacheSoundness.LoadedBlockIsRight | ucm/integration/vllm/ucm_connector.py:604-620 | the entry under the id that a request loads on a rank is that rank's share of the request's own block |
| CacheSoundness.DumpedBlockIsRight | ucm/integration/vllm/ucm_connector.py:693-705 | after a step of a request without a failed load every dumped physical block holds the block of the prefix its id stands for |
| CacheSoundness.DumpStores | ucm/integration/vllm/ucm_connector.py:693-716 | a dump of a request without a failed load adds the entry that its prefix and rank are looked up by, with the right block, and changes nothing else |
| CacheSoundness.ComputeContent | ucm/integration/vllm/ucm_connector.py:595-638 | for a request without a failed load, computing one token from the cells in memory writes the cell of computing everything from scratch and disturbs no other token |
| CacheSoundness.MatchRecords | ucm/integration/vllm/ucm_connector.py:461-480 | a recorded match has the ids of all full blocks; when the lookup succeeds its hits are exactly the leading blocks that the store has past the HBM hits, else there are none; at least one token is left to compute |
| CacheSoundness.StoredIsFound | ucm/integration/vllm/ucm_connector.py:427-480 | when the store has the leading blocks of a request up to block n, its match hits at least n blocks and reports their tokens, all but one if they are the whole prompt |
| PrefixCache.StoreKeptIffBlockRight | ucm/integration/vllm/ucm_connector.py:700-716 | writing an entry keeps the store sound exactly when the data is the block of the prefix the key stands for; a wrong block is never hidden by another entry |
| CacheFailure.FailedLoadBreaksStore | ucm/integration/vllm/ucm_connector.py:622-640 | a run of a sound engine from an empty store, with one failed load whose request goes on computing and dumping, that ends with an unsound store |
| StaleRecord.StaleRecordBreaksStore | ucm/integration/vllm/ucm_connector.py:427-480 | a run of a sound engine without a failed load, in which a resumed request is matched with an early return and dumps an old block under a live id, that ends with an unsound store |
| PrefixCache.KeyInjective | ucm/integration/vllm/ucm_connector.py:612-614 | two store keys are equal only for the same token prefix and, without latent attention, the same rank |
| PrefixCache.SoundEngineExists | ucm/integration/vllm/ucm_connector.py:292-310 | for every block size, number of ranks and kind of attention there is an engine that meets the assumptions |
| ChainedHash.GenerateHash | ucm/integration/vllm/ucm_connector.py:292-310 | one id per full block, each the chain of the whole prefix that ends with it; a partial block has none |
| ChainedHash.ChainInjective | ucm/integration/vllm/ucm_connector.py:303-308 | equal ids mean the same number of blocks and the same tokens |
| ChainedHash.ChainOfPrefix | ucm/integration/vllm/ucm_connector.py:303-308 | the id depends only on the tokens of its own prefix |
| Connector.DirectConnector.GetNumNewMatchedTokens | ucm/integration/vllm/ucm_connector.py:403-480 | in terms of the store's answer n for the ids past the HBM hits: a request below the threshold or without such an id is skipped and leaves the old record in place, any other is recorded with the whole blocks k that n covers, span(cp, k) <= n < span(cp, k + 1), and reports their span(size, k) tokens, less one if HBM and store hits are the whole prompt |
| Dispatch.MatchReports | ucm/integration/vllm/ucm_connector.py:427-480 | the match specification is skipped exactly for such requests, and what it records and returns is that |
| Connector.DirectConnector.GenerateDispatchMeta | ucm/integration/vllm/ucm_connector.py:487-533 | the dispatch of one request and its advanced record; when the record fits the step, the loaded blocks are the hit blocks past the HBM hits and the dumped ones those that the step completes, each with its own id for every context-parallel rank, and no id is both |
| Dispatch.DispatchedIsRight | ucm/integration/vllm/ucm_connector.py:500-533 | a record that fits the step gives, entry by entry, each loaded and dumped block with its own id for every context-parallel rank, and with distinct ids none that is both |
| Dispatch.MatchIsConsistent | ucm/integration/vllm/ucm_connector.py:461-480 | the record of every match fits every first step that stays within the prompt |
| Connector.DirectConnector.BuildConnectorMeta | ucm/integration/vllm/ucm_connector.py:535-593 | every scheduled tracked request is dispatched from its own record, the others are not, records of other requests do not change, and finished ones are forgotten |
| Dispatch.DumpsTelescope | ucm/integration/vllm/ucm_connector.py:509-528 | for every split of a prefill into steps the dumped slices are consecutive, ids and blocks in step, and never include a block whose last token is not scheduled |
| Dispatch.PrefillDumpsEachBlockOnce | ucm/integration/vllm/ucm_connector.py:461-528 | over a whole prefill each full block past the hits is dumped once, none of the load range, and nothing afterwards |
| Dispatch.StridesAlign | ucm/integration/vllm/ucm_connector.py:968-982 | a rank's stride of the ids is as long as the block list and its i-th id belongs to block i |
| Dispatch.StridesPartition | ucm/integration/vllm/ucm_connector.py:968-982 | every hash block goes to exactly one rank and place |
| Dispatch.PresentPrefix | ucm/integration/vllm/ucm_connector.py:440-441 | the number of leading ids the store has |
| LayerwiseLoad.LayerWiseConnector.SubmitLayer | ucm/integration/vllm/ucm_connector.py:784-806 | the layer is submitted once for exactly the requests that have not failed; what the store refuses fails and is reported |
| LayerwiseLoad.LayerWiseConnector.StartLoadKv | ucm/integration/vllm/ucm_connector.py:808-832 | a new step tracks exactly the requests with blocks to load and has submitted only the first layer |
| LayerwiseLoad.LayerWiseConnector.WaitForLayerLoad | ucm/integration/vllm/ucm_connector.py:834-861 | when it returns, each request has all layers so far submitted once and waited for, or has failed with all its blocks reported; a failed request gets no further submissions and nothing beyond the next layer is submitted |
| LayerwiseLoad.LayerWiseConnector.WaitAll | ucm/integration/vllm/ucm_connector.py:842-851 | exactly the requests whose task failed are given up |
| LayerwiseLoad.LayerWiseConnector.ForwardPass | ucm/integration/vllm/ucm_connector.py:808-861 | after a pass over all layers a request is fully loaded if the store completed all its layers, else all its blocks are reported; no block is reported without such a request |
| SpscRingQueue.QueueIsSafe | ucm/shared/infra/template/spsc_ring_queue.h:45-89 | in every interleaving of single atomic steps the popped values are a prefix of the pushed ones, at most capacity - 1 are held, and the slot being written is never the slot being read |
| SpscRingQueue.PushedAreArguments | ucm/shared/infra/template/spsc_ring_queue.h:56-89 | in every interleaving the published values, with that of a push under way, are the arguments of the calls made, in order, less the refused ones, and the popped values are a prefix of them; `Push` is never refused, and `TryPush` exactly when it finds the queue full |
| SpscRingQueue.StepKeeps | ucm/shared/infra/template/spsc_ring_queue.h:56-89 | each atomic load, store or buffer access keeps the invariant |
| SpscRingQueue.PushRefusedIffFull | ucm/shared/infra/template/spsc_ring_queue.h:70-79 | a push is refused exactly when capacity - 1 values are held at the load of the tail |
| SpscRingQueue.PopRefusedIffEmpty | ucm/shared/infra/template/spsc_ring_queue.h:81-89 | a pop is refused exactly when nothing was published when the head was loaded |
| SpscRingQueue.ModNext | ucm/shared/infra/template/spsc_ring_queue.h:45-54 | with either form of the index arithmetic the successor of position n is position n + 1 modulo the capacity |
| Bits.AndMask | ucm/shared/infra/template/spsc_ring_queue.h:45-52 | masking with a power of two minus one is the remainder |
| HashSet.HashSet.Insert | ucm/shared/infra/template/hashset.h:80-126 | the abstract set gains the key and the size stays its cardinality |
| HashSet.HashSet.Contains | ucm/shared/infra/template/hashset.h:127-142 | answers membership of the abstract set |
| HashSet.HashSet.Remove | ucm/shared/infra/template/hashset.h:143-164 | the abstract set loses the key and the size stays its cardinality |
| HashSet.HashSet.ProbesFrom | ucm/shared/infra/template/hashset.h:94 | probing starts from the hash without the bits that select the shard |
| HashSet.Shard.Insert | ucm/shared/infra/template/hashset.h:85-126 | below the load guard the key goes to the first slot on its path that is not occupied, tombstones included, and a stored key changes nothing; at the guard the table is doubled first; the guard leaves an empty slot, so the probe loop always returns and the code after it is unreachable; the counters stay right |
| HashSet.Shard.Rehash | ucm/shared/infra/template/hashset.h:60-77 | the doubled table holds the same keys and no tombstones |
| HashSet.Shard.Locate | ucm/shared/infra/template/hashset.h:132-141 | the probe loop ends and finds the key's slot exactly when the key is stored |
| HashSet.Shard.Remove | ucm/shared/infra/template/hashset.h:148-163 | a stored key's slot becomes a tombstone, no other slot changes, and everything else stays findable |
| ProbeTable.SearchEnds | ucm/shared/infra/template/hashset.h:136-141 | reaching an empty slot after probing from home proves the key absent |
| ProbeTable.PlaceKeeps | ucm/shared/infra/template/hashset.h:97-106 | placing a key in a slot that its probe sequence passed keeps every key findable |
| ProbeTable.EraseKeeps | ucm/shared/infra/template/hashset.h:154-160 | turning a slot into a tombstone keeps every other key findable |
| ProbeTable.RoomStopsSearch | ucm/shared/infra/template/hashset.h:85-108 | fewer marks than slots means that every probe sequence meets an empty slot |
| ProbeTable.CountIsCardinality | ucm/shared/infra/template/hashset.h:99-105 | the number of occupied slots is the number of keys |
| TopNHeap.TopNHeap.Push | ucm/shared/infra/template/topn_heap.h:81-99 | a push keeps the N greatest as long as its slot is free, and otherwise exactly the value in that slot is lost; a full heap takes a value in the place of its least one if that is smaller and is else left alone |
| TopNHeap.TopNHeap.Pop | ucm/shared/infra/template/topn_heap.h:70-74 | removes exactly the root and keeps heap order and distinct indices |
| TopNHeap.TopNHeap.Top | ucm/shared/infra/template/topn_heap.h:69 | the root is a minimum of the live values |
| TopNHeap.TopNHeap.Drain | ucm/shared/infra/template/topn_heap.h:69-74 | popping everything yields the live values in comparator order |
| TopNHeap.TopNHeap.PushAll | ucm/shared/infra/template/topn_heap.h:81-99 | any pushes into an empty heap leave as live values the N greatest of all pushed ones, ties included |
| TopNHeap.SelectTopN | ucm/shared/infra/template/topn_heap.h:69-99 | clearing, pushing any values and reading out gives the N greatest of them in comparator order |
| TopNHeap.TopNHeap.SiftUp | ucm/shared/infra/template/topn_heap.h:119-128 | terminates, permutes and restores heap order |
| TopNHeap.TopNHeap.SiftDown | ucm/shared/infra/template/topn_heap.h:129-142 | terminates, permutes and restores heap order |
| TopNHeap.TopNHeap.Clear | ucm/shared/infra/template/topn_heap.h:75 | starts a new push phase |
| TopNHeap.InterleavedPushLosesValue | ucm/shared/infra/template/topn_heap.h:84-91 | a push after a partial drain of a full heap loses a live value |
| HeapOrder.PushKeepsTopN | ucm/shared/infra/template/topn_heap.h:84-99 | one push step takes the N greatest of the pushed values to the N greatest with the new one, ties included |
| OnlineSoftmax.AttendQuery | ucm/sparse/rerope/triton_unified_attention_rerope.py:156-302 | for every query and tiling both kernels compute the average of the values over the visible keys, weighted by the exponentials of the near score for keys closer than the rerope window and of the far score for the others |
| OnlineSoftmax.RowIsRerope | ucm/sparse/rerope/triton_unified_attention_rerope.py:236-263 | the softmax of the masked row of scores is that average, summed key by key over the far part and the near part of what the sliding window leaves visible |
| OnlineSoftmax.OnlySelectedScores | ucm/sparse/rerope/triton_unified_attention_rerope.py:251-258 | two queries get the same output when their near scores agree on the visible keys closer than the window and their far scores on the other visible ones |
| OnlineSoftmax.PureWindows | ucm/sparse/rerope/triton_unified_attention_rerope.py:251-258 | with every visible key inside the rerope window the output is the plain softmax over the near scores, with none inside it is that over the far scores |
| OnlineSoftmax.Attend | ucm/sparse/rerope/triton_unified_attention_rerope.py:156-302 | the tile loop gives the softmax of every row with an unmasked key; the initial L = 1 never shows |
| OnlineSoftmax.TileStepRepresents | ucm/sparse/rerope/triton_unified_attention_rerope.py:261-299 | after each tile (M, L, acc) are the weighted sums of all keys so far relative to M |
| OnlineSoftmax.AttendSegmented | ucm/sparse/rerope/triton_unified_attention_rerope.py:434-576 | segments computed apart and merged give the one-pass softmax, whatever the unused segments hold |
| OnlineSoftmax.RunSegments | ucm/sparse/rerope/triton_unified_attention_rerope.py:391-596 | the results of the active segments are those of consecutive parts that make up the row |
| OnlineSoftmax.ReduceSegments | ucm/sparse/rerope/triton_unified_attention_rerope.py:622-668 | masking out the other segments and merging gives the softmax of the row |
| OnlineSoftmax.ReduceIsSoftmax | ucm/sparse/rerope/triton_unified_attention_rerope.py:629-670 | merging segment results is the softmax of their concatenation |
| OnlineSoftmax.ActiveSegments | ucm/sparse/rerope/triton_unified_attention_rerope.py:391-395 | the segments that do not return early are the first `act_num_segments`, and exactly those have a tile |
| OnlineSoftmax.SegmentsCover | ucm/sparse/rerope/triton_unified_attention_rerope.py:447-453 | their tile ranges partition the blocks |
| OnlineSoftmax.LaterKeysIgnored | ucm/sparse/rerope/triton_unified_attention_rerope.py:236-263 | keys after the query and the padding of the last block do not change the sums |
| OnlineSoftmax.NormalisedIsSoftmax | ucm/sparse/rerope/triton_unified_attention_rerope.py:302 | dividing by L gives the softmax whatever M the sums are relative to |
| QueryGrid.FindSeqIdx | ucm/sparse/rerope/triton_unified_attention_rerope.py:32-51 | the binary search returns the sequence that owns the q-block or the token |
| QueryGrid.OwnerUnique | ucm/sparse/rerope/triton_unified_attention_rerope.py:105-111 | a q-block has one owning sequence |
| QueryGrid.Covered | ucm/sparse/rerope/triton_unified_attention_rerope.py:105-126 | every query token and head is handled by a program within the launch bound |
| QueryGrid.HandledOnce | ucm/sparse/rerope/triton_unified_attention_rerope.py:105-126 | by only one program and row, when the heads per key head divide 16 |
| QueryGrid.ProgramExists | ucm/sparse/rerope/triton_unified_attention_rerope.py:720-732 | the q-block of a token lies within q.shape[0] // BLOCK_Q + num_seqs and before the next sequence's |
| QueryGrid.NotDividingOverlaps | ucm/sparse/rerope/triton_unified_attention_rerope.py:720-721 | for every other number of heads per key head some token is handled twice |
| AttentionLaunch.Launch | ucm/sparse/rerope/triton_unified_attention_rerope.py:105-302 | over a whole call every output element is written exactly once and holds the rerope attention of its query over the keys of the key head that its query head belongs to, with the one-pass kernel and with the segmented one and its reduction |
| AttentionLaunch.Grid | ucm/sparse/rerope/triton_unified_attention_rerope.py:105-126 | the first launch writes for every token and head, in exactly one row of one program, its attention or its segments |
| AttentionLaunch.ReduceGrid | ucm/sparse/rerope/triton_unified_attention_rerope.py:600-678 | the second launch, which finds a token's sequence by token, reduces the segments of every token and head to its attention |
| BlockRelocation.GetMvMap | ucm/sparse/gsa/gsa.py:832-864 | the free list never runs out, no copy reads what another writes, destinations are distinct, and the two maps are split at `remain_len` |
| BlockRelocation.InitLastChunk | ucm/sparse/gsa/gsa.py:806-830 | in any order of the copies every selected block's original content ends in its mapped block, a selected block that is kept stays where it is, the maps are a bijection to the kept blocks, and no other block changes |
| BlockRelocation.CopyBlocks | ucm/sparse/gsa/gsa.py:827-830 | running independent moves in any order puts each source's old content at its destination and touches nothing else |
| BlockRelocation.FreeMatchesMissing | ucm/sparse/gsa/gsa.py:840-856 | as many kept indices are free as selected ones are missing |
| BlockRelocation.MovesIndependent | ucm/sparse/gsa/gsa.py:851-856 | sources and destinations are disjoint and destinations distinct |
| BlockRelocation.PlacementBijective | ucm/sparse/gsa/gsa.py:858-864 | the mapped blocks are exactly the kept ones, each once |
| KeptBlocks.KeptBlocksAgree | ucm/sparse/gsa/gsa.py:1124-1146 | for a long prompt the positions the scheduler keeps at the first decode are the worker's positions if and only if a block holds more than one token and the prompt is longer than a block |
| KeptBlocks.PositionsAgree | ucm/sparse/gsa/gsa.py:796-804 | for any window w and count k the two computations agree exactly when w < k or the window exceeds all blocks by k |
| KeptBlocks.WorkerKeepsSelects | ucm/sparse/gsa/gsa.py:801-805 | the worker's positions are exactly the initial window and the last blocks, distinct, in range, and as many as it asserts |
| KeptBlocks.SlotsAreResidentTokens | ucm/sparse/gsa/gsa.py:1053-1063 | there is an estimate exactly for an enabled, decoding request with a long prompt, and it is the token count less the dropped blocks |
| KeptBlocks.ResidentIs | ucm/sparse/utils.py:26-47 | the resident blocks are three tenths of the prompt's, rounded up and clamped to the blocks that hold 4096 and 6144 tokens, and as many more as hold 128, at most all |
| KeptBlocks.SparseBlocks | ucm/sparse/gsa/gsa.py:1053-1063 | the slots take exactly the request's blocks less the dropped ones |
| KeptBlocks.FirstDecodeNeed | ucm/sparse/gsa/gsa.py:1128-1134 | at the first decode the needed blocks are the resident ones, also when the new token opens a block |
| KeptBlocks.WindowFits | ucm/sparse/utils.py:26-47 | for a long prompt the initial window is smaller than the selection exactly when the prompt is longer than a block |
| KeptBlocks.BlockList.AllocateSlots | ucm/sparse/gsa/gsa.py:1124-1164 | the kept blocks, in order, are a prefix of the new list, no block is lost or duplicated, and it fails exactly when the pool is too small |
| KeptBlocks.BlockList.AllocateStep | ucm/integration/vllm/patch/v0110/vllm/sparse/v1/core/sched/scheduler.py:280-317 | the retry loop of one step: after a refusal the same call keeps what the first one kept and returns nothing, also when the first decode token opens a block |
| KeptBlocks.BlockList.DecodeSteps | ucm/sparse/gsa/gsa.py:1124-1164 | over any decode steps, each retried while other requests are preempted for it, the worker's blocks stay in front, only the first call returns blocks, and none is lost or duplicated |
| KeptBlocks.KeepsAllIff | ucm/sparse/gsa/gsa.py:1140-1149 | nothing is returned exactly when the list is within what is needed or within the window |
| DeltaLoad.DiffTwoMap | ucm/sparse/esa/esa.py:150-165 | in any iteration order the new map covers the target's slots with the target's hashes one to one, and a slot is loaded exactly when it held no wanted hash |
| DeltaLoad.SwapDelta | ucm/sparse/kvstar/multistep.py:454-493 | the list form computes the same kind of delta |
| DeltaLoad.LoadsOnlyMissing | ucm/sparse/esa/esa.py:160-164 | over the same slots the loaded hashes are exactly the wanted ones that were not resident |
| DeltaLoad.DeltaRefinesLoadAll | ucm/sparse/esa/esa.py:328-342 | after the delta the slots hold the same set of blocks as after loading everything, and the record agrees with the cache |
| DeltaLoad.SwapArea.LoadRetrieved | ucm/sparse/esa/esa.py:317-344 | over any sequence of retrievals the record stays true of the cache, and the slots paired with a hash hold exactly those hashes, as after loading everything |
| DeltaLoad.SwapArea.SwapIn | ucm/sparse/kvstar/multistep.py:449-498 | the same for the swap area |
| KvStarPipeline.OffloadSlotsExact | ucm/sparse/kvstar/multistep.py:110-136 | a prompt chunk writes slot i exactly when it holds the token that slot is for |
| KvStarPipeline.SlotWrittenOnce | ucm/sparse/kvstar/multistep.py:110-136 | two chunks of a prompt never write the same slot |
| KvStarPipeline.RecordsAgree | ucm/sparse/kvstar/multistep.py:281-288 | the record written at a step, the one submitted at the end of a stride and the one then loaded are a group, the same group, and the group before |
| KvStarPipeline.TwoGroupsLive | ucm/sparse/kvstar/multistep.py:505-525 | at most two decode groups are on standby or being retrieved |
| KvStarPipeline.ReqPerLayerState.OffloadPrefillQuery | ucm/sparse/kvstar/multistep.py:400-420 | after each chunk exactly the slots of the computed tokens are filled, each with its own query |
| KvStarPipeline.ReqPerLayerState.RetrievalAsync | ucm/sparse/kvstar/multistep.py:251-276 | the task of the record has exactly the queries present on its standby table, in order; without candidates the result is empty at once; no other task or result changes |
| KvStarPipeline.ReqPerLayerState.LoadRetrieveResultAsync | ucm/sparse/kvstar/multistep.py:422-447 | afterwards the needed record has a result and, if it was waited for, is off standby; the missing blocks are transferred, for the prompt's result only at the first step; no other result or standby table changes |
| KvStarPipeline.ReqPerLayerState.AttentionBegin | ucm/sparse/kvstar/multistep.py:375-398 | every group on standby has the queries of its steps, the group a stride completes is submitted with exactly its queries, and no transfer is under way when the attention starts |
| KvStarPipeline.ReqPerLayerState.AttentionFinished | ucm/sparse/kvstar/multistep.py:547-565 | a group is loaded exactly at the ends of strides from the second on; it is the one of the stride before, submitted one stride earlier and not loaded before, and its missing blocks are transferred |
| KvStarPipeline.ReqPerLayerState.DecodeSteps | ucm/sparse/kvstar/multistep.py:356-565 | over any number of decode steps the k-th load is that of the k-th stride, submitted at that stride's last step and loaded a stride later, its result answers exactly the queries of that stride in order, every stride but the last full one is loaded, and the prompt's result answers the last queries of the prompt |
| BlendMask.BlendBatch.AttentionBegin | ucm/sparse/blend/blend.py:245-322 | as many tokens are computed as there are requests at the front, none of a request without chunk metadata, and of another one all if no block was found, else the question, the missed blocks, and a token of a found block exactly when the number of tokens of found blocks before it is among the selected places; query lengths are reduced, and the new start positions are the compaction map, and the token count that of the slots, exactly for a batch with one token per earlier request and chunk metadata for each new one |
| BlendMask.BlendBatch.BlendPass | ucm/sparse/blend/blend.py:178-378 | a whole step from the metadata to the logits: exactly those tokens are computed; some request blends exactly when some block of some request was found, and then the logits of request r come from its own last token exactly when it and all requests before it are accounted for, so of all of them exactly in a supported batch; without blending nothing changes |
| BlendMask.BlendBatch.BuildSparseMeta | ucm/sparse/blend/blend.py:178-200 | the entries are those of the new requests with chunk metadata, each with its index in the batch and its joined hits |
| BlendMask.BlendBatch.AddRequest | ucm/sparse/blend/blend.py:85-112 | a request without chunks is left out, of another the hits of all chunks are joined |
| BlendMask.JoinedAt | ucm/sparse/blend/blend.py:94-97 | hit i of chunk c stands after the hits of the chunks before |
| BlendMask.MixedBatchGoesWrong | ucm/sparse/blend/blend.py:92-93 | a request without chunk metadata beside one that blends: the start positions are not the compaction map and both logits positions are wrong |
| BlendMask.LayerCompacts | ucm/sparse/blend/blend.py:245-322 | after the layer the query lengths of the first n requests count their computed tokens exactly when those are accounted for |
| BlendMask.AllAccountedIff | ucm/sparse/blend/blend.py:92-118 | all requests are accounted for exactly when each earlier one has one token and each new one has chunk metadata |
| BlendMask.BlendBatch.UpdateReqComputeMask | ucm/sparse/blend/blend.py:126-146 | missed blocks, chosen tokens and the question are computed, nothing else of the request |
| BlendMask.BlendBatch.UpdateAttnMetadata | ucm/sparse/blend/blend.py:202-215 | the slots are those of the computed tokens, the maximum query length is the largest of the new lengths, and start positions and token count are compacted exactly when every query length counts the computed tokens of its request |
| BlendMask.BlendBatch.ExecuteFinished | ucm/sparse/blend/blend.py:370-378 | the logits position of a request is the compacted position of its last token, which is computed, exactly when it and all requests before it are accounted for |
| BlendMask.RequestCount | ucm/sparse/blend/blend.py:290-318 | the computed tokens of a listed request are its query length less the reused ones, a skipped one has none |
| BlendMask.ChunkCount | ucm/sparse/blend/blend.py:134-143 | the chunk area computes all missed blocks and as many hit tokens as were chosen |
| BlendMask.CandidatesAreHits | ucm/sparse/blend/blend.py:297-300 | the candidates are exactly the tokens of the hit blocks, each once |
| BlendMask.CandidateAt | ucm/sparse/blend/blend.py:297-302 | token o of a found block stands in the candidate list after the tokens of the found blocks before it |
| BlendMask.StartsCompacted | ucm/sparse/blend/blend.py:209-211 | a prefix sum of the lengths is the number of computed tokens before its request exactly when all lengths before it count computed tokens, else it is larger |
| BlendMask.CompactedIff | ucm/sparse/blend/blend.py:209-215 | the rebuilt start positions are the compaction map exactly when every query length counts the computed tokens of its request |
| BlendMask.SelectAt | ucm/sparse/blend/blend.py:306-308 | a computed token is found at the count of computed tokens before it |
| BlendMask.LastTokenComputed | ucm/sparse/blend/blend.py:126-146 | the last token of a request is computed if and only if it is listed and the token is not a found one, left out of the selection, at the end of a request that ends with its chunks |
| BlendMask.EntryCounts | ucm/sparse/blend/blend.py:114-146 | in the finished mask the query length of a request counts its computed tokens, and its last token is computed, exactly when it is accounted for |
| BlendMask.SelectedAtLast | ucm/sparse/blend/blend.py:306-308 | whatever is compacted with the mask, the logits position holds what belongs to the last token of the request |
| BlendDispatch.SplitChunks | ucm/integration/vllm/blend_connector.py:171-204 | the chunks tile the blocks up to the last closing one, each ends at a closing block and has none inside, and is hashed on its own |
| BlendDispatch.ProcessReq | ucm/integration/vllm/blend_connector.py:148-220 | a prompt is cached as one chunk exactly when it ends with the closing token at a block boundary; a blended one is split at its closing blocks and has tokens after its chunks; one cached as a prefix has no closing block |
| BlendDispatch.GetReqChunkHit | ucm/integration/vllm/blend_connector.py:222-259 | the prefix hit is the longest present prefix, the chunk hits are the ids of the later chunk blocks that the store has, and the chunks get the hits of their own blocks |
| BlendDispatch.PreparedTiles | ucm/integration/vllm/blend_connector.py:244-257 | with the prefix hit inside the first chunk the prepared chunks tile exactly the blocks after it |
| BlendDispatch.GenerateBlendDispatchMeta | ucm/integration/vllm/blend_connector.py:261-324 | what is loaded and dumped in each stage |
| BlendDispatch.LoadsAligned | ucm/integration/vllm/blend_connector.py:294-312 | ids and physical blocks are loaded under one mask: each pair shares its logical index and exactly the reused blocks are loaded |
| BlendPlan.ServePrompt | ucm/integration/vllm/blend_connector.py:148-324 | from the match of any prompt to its loads, dumps and rotations: the tokens of the longest stored prefix are reported, all but one if that is the whole prompt; without blending the blocks of that prefix are loaded, each under its own id, and the other full blocks are dumped under theirs; with blending nothing is dumped, and the loads pair stored ids with blocks of their own exactly when the prefix hit does not go beyond the first chunk; then ids, blocks, rotations and hits are taken under the mask of the prefix hit and the later blocks whose id the store has, each id is that of the chunk its block lies in, each block is rotated by its position less its position in that chunk's own cache, and tokens are left to compute after the chunks; chunk hits are handed to the sparse attention exactly for a prompt that blends |
| BlendPlan.GetNumNewMatchedTokens | ucm/integration/vllm/blend_connector.py:346-403 | the tokens of the longest stored prefix, all but one if that is the whole prompt; a prompt blends exactly when it has chunks and at least 16 of their blocks after the prefix hit are in the store, and is recorded with the ids of its chunks, any other with those of its prefix and no chunks |
| BlendPlan.FoundIsCount | ucm/integration/vllm/blend_connector.py:241-243 | the chunk hits are the number of blocks after the prefix hit whose id the store has |
| BlendPlan.LoadsRightIff | ucm/integration/vllm/blend_connector.py:244-370 | every loaded id is in the store and paired with a block of its own if and only if the prefix hit does not go beyond the first chunk or fewer than 16 chunk blocks are found |
| BlendPlan.LoadsGoWrong | ucm/integration/vllm/blend_connector.py:294-312 | a prompt and a store for which a block is loaded twice, however the prompt is split and with every collision-free hash |
| BlendPlan.ExampleServed | ucm/integration/vllm/blend_connector.py:148-324 | taken from its match to its loads, that prompt is loaded wrongly |
| BlendPlan.IsSplitUnique | ucm/integration/vllm/blend_connector.py:171-204 | the chunks of a prompt and how far they reach are determined by its closing blocks |
| BlendPlan.BlendLoads | ucm/integration/vllm/blend_connector.py:294-312 | with the prefix hit inside the first chunk, ids and blocks are taken under one mask and the store has every id, also those of the prefix part, which were not looked up |
| BlendPlan.FirstChunkIsPrefix | ucm/integration/vllm/blend_connector.py:171-204 | the ids of the first chunk hashed on its own are those of the prompt's prefix |
| BlendPlan.IdOfBlock | ucm/integration/vllm/blend_connector.py:171-204 | the id of a block is the chain of its own chunk's tokens up to it |
| BlendPlan.RotationMeta | ucm/integration/vllm/blend_connector.py:468-487 | the loop collects the reused blocks of all chunks, each with the offset of its chunk |
| BlendPlan.RotationAligned | ucm/integration/vllm/blend_connector.py:475-480 | rotated blocks and offsets are taken under the mask of the loads |
| BlendPlan.RotationIsDistance | ucm/integration/vllm/blend_connector.py:56-85 | through hit lookup and trimming, the rotation of a block in chunk j of the prompt is its position in the prompt less its position in chunk j's own cache |
| MindieHash.CombineAgree | ucm/integration/mindie/hash_mindie/uc_hash_ext.cpp:16-26 | on 64-bit inputs extension and Python agree except exactly when the sum wraps to the seed; then Python gives 0 and the extension 1 |
| MindieHash.CombineInjective | ucm/integration/mindie/hash_mindie/uc_hash_ext.cpp:16-26 | from the same seed two words are combined into the same value only if they are equal or one is degenerate |
| MindieHash.MixedShifts | ucm/integration/mindie/hash_mindie/uc_hash_ext.cpp:19-22 | the sum is the value, the golden ratio and the seed shifted left by six and right by two |
| MindieHash.DegenerateWitness | ucm/integration/mindie/patch/prefix_cache_plugin.py:56-59 | such an input exists |
| MindieHash.HashBlock | ucm/integration/mindie/hash_mindie/uc_hash_ext.cpp:57-64 | a block hash combines the id of the block before, unless that is 0, then the tokens in order, then the extra hash 0; it is a 64-bit word and never 0 |
| MindieHash.PyHashBlock | ucm/integration/mindie/patch/prefix_cache_plugin.py:247-254 | the Python block hash is the extension's when no step is degenerate |
| MindieHash.HashPrefix | ucm/integration/mindie/hash_mindie/uc_hash_ext.cpp:67-92 | an error exactly for arguments out of range, else one hash per block, each the block hash of that block's own tokens after the hash before it, the first after the prefix, for any prefix number and each of the three token types |
| MindieHash.TokensUnchanged | ucm/integration/mindie/hash_mindie/uc_hash_ext.cpp:28-33 | token ids that are not negative are hashed as they are, whatever type they come in, negative ones as the two's complement in the bits of their type |
| MindieHash.ResumedChain | ucm/integration/mindie/hash_mindie/uc_hash_ext.cpp:86-90 | hashing from a resumed prefix is the tail of hashing from the start |
| MindieHash.OwnedBlocks | ucm/integration/mindie/patch/prefix_cache_plugin.py:308-314 | a rank transfers exactly the blocks whose number is its rank modulo the ranks |
| CpuList.ToCpuList | ucm/integration/vllm/device.py:478-493 | for any list of cores the printed text reads back as maximal runs that expand to exactly those cores, ascending and each once |
| CpuList.TextRoundTrip | ucm/integration/vllm/device.py:61-77 | reading the text of any segments gives them back |
| CpuList.ParseEitherWay | ucm/integration/vllm/device.py:61-72 | a range may be written from either end |
| CpuList.SplitCores | ucm/integration/vllm/device.py:50-95 | the worker and store shares of every segment, nothing for unreadable text, and the fallback for an empty list |
| CpuList.SplitPrinted | ucm/integration/vllm/device.py:50-95 | printing any cores and splitting what was printed gives every core to the worker or the store, once, and of every run of consecutive cores the worker exactly the first core and the others of the first half |
| CpuList.SharesPartition | ucm/integration/vllm/device.py:73-77 | worker and store cores partition the cores |
| CpuList.SharesHave | ucm/integration/vllm/device.py:73-77 | of each segment the worker has exactly the first core and the others of the first half, the store the rest |
| CpuList.WorkerInEverySegment | ucm/integration/vllm/device.py:75-76 | the worker has a core of every segment |
| CpuList.SlicesPartition | ucm/integration/vllm/device.py:511-515 | the slices adjoin, cover all cores and differ by at most one core, the earlier ones being the longer |
| CpuList.OneSliceEach | ucm/integration/vllm/device.py:511-515 | every core is in the slice of exactly one rank |

## Left out

- Store backends and their connectors (pipeline, pcstore, nfsstore, mooncake): thin layers over native libraries; the store is a map here.
- Recovery from failed loads: what the engine does with the reported blocks is not part of this model; the failure tracking itself is in `LayerwiseLoad`.
- Context parallelism in whole runs: the strides are proved on their own, the run model has one hash block per vLLM block.
- Pipelined saving of layers (`save_kv_layer`): its order of dumps adds nothing to the block-wise dumps of the run model.
- UCMMockConnector, UCMLiteConnector and UCMPDConnector: test or unfinished variants.
- Memory-order weakness in the C++ templates: steps are sequentially consistent, and `HashSet` operations are atomic under their shard lock.
- Widths of `size_t` and `uint32_t` counters: they do not overflow for any capacity that fits in memory.
- Floating-point rounding, fp8 scaling, soft caps and ALiBi slopes of the attention kernels.
- Which tokens or blocks score highest: selections are arbitrary distinct indices.
- The pools of block representations and the step counter of ESA: index bookkeeping that would only add easy members.
- DeltaLoad.SwapDelta: takes as many slots as hashes; the transfer it feeds pairs the two lists, and the retrieval is asked for as many blocks as there are slots.
- DeltaLoad.SwapArea.SwapIn: takes as many slots as hashes, for the same reason.
- A failed retrieval of KVStar ends in an assertion in the source and is not modelled; neither is an empty candidate set over a whole run, where groups stay on standby.
- BlendPlan.RotationMeta: takes the chunks of all requests of `bind_connector_metadata` as one list.
- Chunked prefill under cache blending, which the source excludes, and more than one blend layer.
- A prompt shorter than a block has no dispatch record, and building the blend metadata of a batch with one raises an error in the source; the model takes a record for every new request.
- Pairing of keys with block tables in `prefix_cache_plugin.py` when context parallelism is on: it depends on a table layout that is not part of this model.
- CpuList.SplitCores: `int()` also accepts signs, underscores and other white space, which count as unreadable here.
- Discovery of NUMA nodes and devices, logging, metrics, configuration loading, proxies and benchmarks.
