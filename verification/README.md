# Verified model of the serving engine and its reference kernels

The repository serves large language models through fast, stateful code paths and
claims that they give the answers of simple ones. This project models those paths in
Dafny and proves the claim where the code meets it; where it does not, a lemma states
exactly when it does.

The modules, from the numpy references up to the server:

- `GatedDelta`: the chunked gated delta rule (triangular solves, carried state, zero
  padding) is the one-token recurrence.
- `Compressor`, `LayerCache`: pooling a prompt at once is the token-by-token state machine;
  the ring of window rows and the compressed rows after it are what a prefill would attend to.
- `Hadamard`: the in-place butterfly is the Sylvester matrix, and is its own inverse.
- `Qsa`: block selection is causal, free of duplicates, dense exactly when the budget
  allows, and the same in prefill and in decode.
- `Primes`, `NGram`: prime vocabularies, disjoint id ranges, no 64-bit overflow, and hashing
  that does not depend on how a stream is cut.
- `TpShard`, `TpReassembly`: slicing block-quantized weights commutes with dequantizing them,
  and reassembly inverts slicing.
- `SpecDecode`: draft-and-verify decoding is greedy decoding, for any drafter.
- `Blocks`, `Scheduling`, `Batching`, `BatchingRuns`: the allocators, the scheduler and the batched engine;
  any interleaving of submissions, aborts and steps produces the single-shot output.
- `Serving`, `ServingRuns`: the server around that engine: HTTP threads, the executor thread and the
  requests' sinks. What a request receives is the single-shot output of its own prompt, however
  the threads interleave and wherever a step fails; and the server never idles over work.
- `Dsml`, `Bpe`, `SpecialTokens`, `SpecialTables`, `ImageBlock`: printers and parsers and their round trips.
- `Prelude`, `Modular`, `Sums`: shared result types and arithmetic.

Floating point is modelled by real numbers, except for the one quotient that is rounded up to a
size. A decay is one factor per token, so `exp` of a difference of running sums is a product over
a range. Exponentials, scores, samplers, drafters, forward passes, the UTF-8 codec, JSON and the
pre-tokenization pattern are parameters. Arrays of more than two dimensions are modelled one slice at a time. Imperative
code is imperative here: classes with their fields for the allocators, scheduler, engines and
caches, arrays for in-place algorithms, loops where the source loops; each method is proved
against a function on values, and the theorems are about those functions.

Results that are negative, stated as equivalences:

- A compressor prefill of fewer tokens than a group drops them. For every gated pooling, softmax
  among them, some stream then gives another row (`Compressor.SplitAgreesExactly`,
  `Compressor.ShortPrefillForgets`, `Compressor.SoftmaxWeighs`).
- A one-slot window names token 0 in every prefill row (`LayerCache.PrefillWindowExactly`).
- Decoding in the first, still open group names a compressed row that does not exist, except at
  position 0 (`LayerCache.DecodeGroups`, and the failing case of `LayerCache.LayerKV.Attend`).
- The two recomputing speculative loops can accept a stop id as a draft token
  (`SpecDecode.PlainForAllHeadsExactly`, `SpecDecode.PlainForAllBlocksExactly`). The
  reference there is generation that neither extends nor emits a stop id.
- Scale slices reassemble only when every rank's share is whole blocks
  (`TpReassembly.FullInvertsScaleExactly`), although validation also accepts shares that
  lie inside one block (`TpReassembly.ShareInsideBlock`: two ranks, one block of 128 rows).
- An empty chunk of a hashed stream returns the rows of its whole context, because a slice
  from minus zero selects everything (`NGram.ChunkInvariance`).
- A rendered message without an end mark and without tool calls is refused by the parser, and
  so is one whose content holds a think tag; arguments that are JSON but no object are not
  rendered at all (`Dsml.RoundTripExactly`).
- A special token that is the symbol of another character's byte, as `Ġ` is of the space, is what
  that character decodes to (`SpecialTables.ByteSymbolSpecial`, `SpecialTables.BuiltOkExactly`).

## Model

| member | source | states |
|---|---|---|
| GatedDelta.Recurrent | ref/qwen3_5.py:125-172 | for every length and initial memory the token loop returns outputs and memory that follow from the inputs token by token: the memory decays by the token's factor, what the key recalls from it is replaced by the value in proportion beta, and the query reads the result |
| GatedDelta.ComputesOnce | ref/qwen3_5.py:159-172 | those token-by-token equations have one solution: outputs and final memory are determined by them |
| GatedDelta.SolveUnitLower | ref/qwen3_5.py:113-122 | forward substitution returns a solution of L x = b, reading only below the diagonal |
| GatedDelta.Unroll | ref/qwen3_5.py:228-251 | the memory inside a chunk is the carried memory, decayed, plus one decayed rank-one term per earlier token of the chunk |
| GatedDelta.ReadUnrolled | ref/qwen3_5.py:228-251 | reading the memory at a token splits into the carried part and the intra-chunk weights |
| GatedDelta.DeltaInChunk | ref/qwen3_5.py:205-251 | the recurrence's corrections satisfy the unit-lower-triangular system that a chunk solves |
| GatedDelta.RecallSolves | ref/qwen3_5.py:205-251 | solving for the decayed keys first and reading the carried state afterwards gives the same as solving for the readings |
| GatedDelta.VNewIsDelta | ref/qwen3_5.py:228-251 | v_new of a chunk is exactly the sequence of corrections the recurrence writes |
| GatedDelta.ChunkOutputsAreOutputs | ref/qwen3_5.py:228-251 | inter-chunk plus intra-chunk rows are the recurrence's outputs |
| GatedDelta.ChunkStateIsState | ref/qwen3_5.py:228-251 | the state carried out of a chunk is the recurrence's memory after its last token |
| GatedDelta.PaddingKeepsState | ref/qwen3_5.py:200-206 | zero-padded tokens leave the memory alone |
| GatedDelta.Chunked | ref/qwen3_5.py:175-256 | for every length, chunk size of at least 1 and initial state, the chunked rule returns outputs and a memory that satisfy the same token-by-token equations, and so are the recurrence's |
| Compressor.StepReady | ref/deepseek_v4.py:703-733 | one decode step keeps the simulation relation and emits the batch row of exactly the group it completes |
| Compressor.PrefillReady | ref/deepseek_v4.py:649-701 | the state left by a prefill of nothing or of at least one group is ready for the rest of the stream, stale rows included |
| Compressor.DecodeEmits | ref/deepseek_v4.py:703-733 | from a ready state, decoding emits exactly the rows not emitted yet |
| Compressor.BatchIsIncremental | ref/deepseek_v4.py:627-733 | prefill of S tokens followed by decode emits the rows of one prefill, for the overlap and the plain layout; row g pools, channel by channel, the kv of its own tokens weighted by score plus position bias, with overlap those of the group before it on the first half of the channels and its own on the second |
| Compressor.PrefillPools | ref/deepseek_v4.py:626-671 | every row of a prefill is the pooling of that window, read from kv, score and bias directly; the first group has no group before it |
| Compressor.SplitAgreesExactly | ref/deepseek_v4.py:655-656 | for every pooling that sums kv times a weight, zero at minus infinity and positive elsewhere: batch equals incremental for every stream if and only if S is 0 or at least one group |
| Compressor.ShortPrefillForgets | ref/deepseek_v4.py:655-656 | under such a pooling, a group whose first token is all ones and the rest zero gives a positive row in a full prefill, and a zero row after a shorter one |
| Compressor.SoftmaxWeighs | ref/deepseek_v4.py:89-97 | the stable softmax over the window is such a weight, for any positive exponential |
| LayerCache.PrefillRingHolds | ref/deepseek_v4.py:941-947 | the rotated prefill write puts token p in slot p mod win for the last win tokens |
| LayerCache.RingWrite | ref/deepseek_v4.py:986-987 | a decode write keeps slot p mod win holding token p for the last win tokens |
| LayerCache.RingOrder | ref/deepseek_v4.py:293-299 | the k-th ring index is the slot of the k-th oldest token of the window |
| LayerCache.DecodeWindow | ref/deepseek_v4.py:293-306 | the window indices of a decode gather the window's tokens, oldest first |
| LayerCache.DecodeGroups | ref/deepseek_v4.py:309-320 | the compressed indices of a decode gather every completed group, and name a missing row if and only if 0 < pos and pos + 1 < ratio |
| LayerCache.PrefillAttends | ref/deepseek_v4.py:293-320 | each prefill row gathers its window and its completed groups, independent of later tokens |
| LayerCache.PrefillWindowExactly | ref/deepseek_v4.py:296-306 | a prefill row names its own window if and only if the window has two slots or more, or the row is the first |
| LayerCache.CompRowsPrefix | ref/deepseek_v4.py:649-671 | completed groups keep their compressed rows as the stream grows |
| LayerCache.CompStep | ref/deepseek_v4.py:994-1002 | a compressor step keeps the stored compressed rows, rotated to their group's first position, those of the stream |
| LayerCache.LayerKV.Prefill | ref/deepseek_v4.py:940-953 | the new cache holds the ring, the compressed rows and the row count of the prompt |
| LayerCache.LayerKV.Decode | ref/deepseek_v4.py:965-1029 | a decode keeps the cache valid and gathers exactly the rows a prefill row at that position would; it fails exactly in an open first group |
| LayerCache.LayerKV.Attend | ref/deepseek_v4.py:578-593 | gathering fails if and only if the first group is open after position 0, and otherwise is the window followed by the stored compressed rows |
| Hadamard.WhtLast | ref/deepseek_v4.py:192-208 | the in-place butterfly loop returns the normalised Sylvester matrix product for every power-of-two length |
| Hadamard.Butterfly | ref/deepseek_v4.py:192-208 | a row of the matrix of order k+1 is the sum or difference of two rows of order k |
| Hadamard.Orthogonal | ref/deepseek_v4.py:192-208 | rows of the matrix are orthogonal, with norm 2^k |
| Hadamard.TwiceIsIdentity | ref/deepseek_v4.py:192-208 | applying the normalised transform twice gives the input back |
| Qsa.ArgsortSorts | ref/qwen4_exp.py:303-304 | the stable argsort is the strictly ordered permutation of all indices |
| Qsa.FastTopk | ref/qwen4_exp.py:288-305 | each output row is the best columns of its range, best first, padded with -1 |
| Qsa.BestIsBest | ref/qwen4_exp.py:300-305 | selected blocks are distinct, none left out scores higher, and all are selected when they fit |
| Qsa.CompactIs | ref/qwen4_exp.py:350-356 | sorting by validity key moves valid entries to the front in order and nothing else |
| Qsa.ExpandAccepts | ref/qwen4_exp.py:324-328 | block rows of budget // ratio columns are accepted if and only if the ratio divides the budget |
| Qsa.RowIsChosen | ref/qwen4_exp.py:308-375 | a row is the tokens of the chosen blocks, then the open block's tail, then padding, in a fixed width |
| Qsa.ChosenIsCausal | ref/qwen4_exp.py:308-375 | only tokens 0..q are listed and none twice |
| Qsa.ChosenIsDense | ref/qwen4_exp.py:308-375 | every token 0..q is listed if and only if the complete blocks fit the budget |
| Qsa.PrefillIsDecode | ref/qwen4_exp_pipeline.py:422-433 | prefill row q and a decode step at q select the same tokens in the same order, with or without complete blocks |
| Qsa.PrefillSelects | ref/qwen4_exp_pipeline.py:422-433 | a prefill row lists the blocks whose compressed keys score highest against its query, the earlier block where scores are equal, as many as the budget allows, and then the open block |
| Qsa.DecodeSelects | ref/qwen4_exp_pipeline.py:298-300 | so does a decode step, and no complete block it leaves out scores higher than one it lists |
| Qsa.CompressedGrow | ref/qwen4_exp_pipeline.py:463-467 | one more token appends a compressed key exactly when it completes a block |
| Qsa.Buffer.Append | ref/qwen4_exp_pipeline.py:179-199 | rows are appended to what readers saw before; a full buffer at least doubles |
| Qsa.CompressAll | ref/qwen4_exp_pipeline.py:414-420 | the loop over complete blocks computes the compressed keys of the stream |
| Qsa.QsaCache.constructor | ref/qwen4_exp_pipeline.py:413-420 | the cache that a prefill leaves is that of its prompt |
| Qsa.QsaCache.Step | ref/qwen4_exp_pipeline.py:443-482 | the caches stay those of the whole stream and the step returns the decode slots: the tokens of the blocks whose compressed keys score highest against the query, and of the open block |
| Primes.IsPrime | ref/qwen4_exp_ple.py:50-59 | trial division by 2 and odd numbers up to the square root decides primality |
| Primes.Euclid | ref/qwen4_exp_ple.py:62-69 | there is a prime above every number, so the search ends |
| Primes.FindNthPrimeAfter | ref/qwen4_exp_ple.py:62-69 | the search returns the count-th prime above the start |
| Primes.NthPrimeGrows | ref/qwen4_exp_ple.py:62-69 | later counts give larger primes |
| Primes.NthPrimeCovers | ref/qwen4_exp_ple.py:62-69 | no prime between the start and the result is skipped |
| NGram.BuildLayerMultipliers | ref/qwen4_exp_ple.py:72-83 | every multiplier is odd, and no token of the vocabulary times it exceeds 2^63 - 1; which ones they are follows from the seed and the layer |
| NGram.MixOnce | ref/qwen4_exp_ple.py:42-47 | the 64-bit mix behind the multipliers loses nothing: different values give different results |
| NGram.HalfBoundLargest | ref/qwen4_exp_ple.py:76-78 | the bound on multipliers is the largest that cannot overflow, or one |
| NGram.ProductFits | ref/qwen4_exp_ple.py:76-83 | a token below the vocabulary size times its multiplier is at most 2^63 - 1, and multipliers are odd |
| NGram.MixedFits | ref/qwen4_exp_ple.py:163-167 | the exclusive or of such products stays a non-negative signed 64-bit integer |
| NGram.BuildLayout | ref/qwen4_exp_ple.py:86-114 | every head gets its prime, its offset is the sum of the sizes before it, and the padded size is the next multiple of the divisor, for totals below 2^53 and divisors up to 2^1022 |
| NGram.RoundedCeil | ref/qwen4_exp_ple.py:111-112 | dividing with rounding to 53 bits and taking the ceiling gives the exact ceiling, for every total below 2^53 and divisor up to 2^1022 |
| NGram.HeadsDistinct | ref/qwen4_exp_ple.py:100-107 | all heads of all layers have different prime sizes |
| NGram.HeadsCover | ref/qwen4_exp_ple.py:100-107 | heads, layer by layer, take the primes from the base on in order and skip none |
| NGram.IdInOwnRange | ref/qwen4_exp_ple.py:108-112 | an id lies in its own head's range, ranges are disjoint, below the total, and the total below the padded size |
| NGram.IdsInRange | ref/qwen4_exp_ple.py:160-173 | every id of a position lies in the range of its head |
| NGram.ShiftIsBack | ref/qwen4_exp_ple.py:117-136 | the accumulated shift is the token that many places back, or eos when an eos or the start lies in between |
| NGram.NgramIds | ref/qwen4_exp_ple.py:139-174 | the loops over orders and positions return the last rows of the ids of the history; each id is its head's offset plus, modulo its size, the number whose bits say where an odd number of the products of a token with its own multiplier have a one |
| NGram.IdsAre | ref/qwen4_exp_ple.py:160-173 | for every position, order and head: the id is that hash of the position's token and the order - 1 tokens before it, each with the multiplier of its distance |
| NGram.XorBit | ref/qwen4_exp_ple.py:163-167 | a bit of an exclusive or is set where exactly one of the two numbers has it set |
| NGram.ChunkIdsAgree | ref/qwen4_exp_ple.py:150-174 | a chunk that is not empty gets the ids its positions have in the whole stream, however short the carried context |
| NGram.ChunkInvariance | ref/qwen4_exp_pipeline.py:647-652 | hashing in chunks gives the ids of the whole stream if and only if no chunk is empty |
| NGram.NGramState.Forward | ref/qwen4_exp_pipeline.py:647-652 | one call hashes its chunk and carries the last ngram_size - 1 tokens on |
| NGram.HashStream | ref/qwen4_exp_pipeline.py:647-652 | a stream through one state returns the concatenated chunk ids, which are those of the whole stream when no chunk is empty |
| TpShard.PlansSplit | loaders/tp_shard.py:71-83 | under an accepted configuration every plan except the vocabulary's splits on whole heads |
| TpShard.RankHeads | loaders/tp_shard.py:113-158 | every rank gets its equal run of whole heads: of queries with their gates, of keys, values, outputs and gates, and of the three parts of the fused projection in the order key-sized, key-sized, value-sized; output projections by columns, the others by rows |
| TpShard.VocabRanges | loaders/tp_shard.py:113-195 | the vocabulary's rows are split evenly if and only if their number divides by the ranks |
| TpShard.UnsplitShards | loaders/tp_shard.py:197-227 | a replicated tensor goes whole to every rank, an expert's only to the rank whose run of experts holds it; validation accepts both |
| TpShard.NoErrorSplits | loaders/tp_shard.py:148-156 | ranges are produced if and only if every segment has a known size, divides by the ranks and splits on its unit |
| TpShard.RanksErrorIff | loaders/tp_shard.py:197-214 | validation accepts if and only if every rank range is non-empty and aligned at its start or inside one block |
| TpShard.OneFollows | loaders/tp_shard.py:206-214 | every rank's share of one segment is aligned or inside one block if and only if it is whole blocks, divides a block, lies in the first block, or there is one rank |
| TpShard.UsableExactly | loaders/tp_shard.py:197-256 | validation and scale slicing accept a split tensor if and only if its sizes do: known, divisible, on units, not empty, covering the axis, and followed by the block grid |
| TpShard.BlockIndex | loaders/fp8.py:132-135 | repeating block indices and cutting to length gives i // block for every element |
| TpShard.DequantLoop | loaders/fp8.py:231-245 | the double loop computes the same matrix as the array expression |
| TpShard.DequantAt | loaders/fp8.py:98-135 | every element is scaled by the scale of its block |
| TpShard.ExpandCommutes | loaders/tp_shard.py:233-260 | slicing the scale grid by floor and ceiling and reading it per element is slicing the grid read per element |
| TpShard.ShardThenDequant | loaders/tp_shard.py:218-267 | for every rank, dequantizing its shard with its scale shard is its shard of the dequantized tensor, for rows, several segments and columns |
| TpShard.RankDequantIsSlice | tp/rank_table.py:62-86 | a rank gets its slice of the dequantized tensor if and only if it owns the tensor and the plan's sizes are usable for the shape and the block |
| TpShard.OwnerPartition | loaders/tp_shard.py:271-273 | every expert belongs to exactly one rank, and each rank owns an equal run |
| TpReassembly.FullInvertsShard | loaders/tp_shard.py:277-301 | reassembly inverts sharding for replicated tensors, columns, rows and several segments |
| TpReassembly.FromRanksInverts | loaders/tp_shard.py:288-301 | scattering every rank's stretch of every segment rebuilds the axis |
| TpReassembly.Scatter | loaders/tp_shard.py:288-301 | the loops with a running base and a running position per rank fill the output with exactly those stretches |
| TpReassembly.ShardsScatter | loaders/tp_shard.py:288-301 | the shards of an accepted tensor are what the scatter loop expects |
| TpReassembly.Reassemble | loaders/tp_shard.py:277-325 | weights and scale grids are reassembled by concatenation or by the scatter loop |
| TpReassembly.DequantsReassemble | tp/rank_table.py:62-86 | the ranks' dequantized slices put back together are the dequantized tensor |
| TpReassembly.FullInvertsScaleExactly | loaders/tp_shard.py:303-325 | scale slices reassemble to the grid if and only if every rank's share is whole blocks |
| TpReassembly.ShareInsideBlock | loaders/tp_shard.py:303-323 | with two ranks and one block of 128 rows validation accepts and the scales are sliced, but the one row of scales reassembles to two |
| SpecDecode.GenerateGreedy | ref/qwen4_exp_pipeline.py:683-692 | the plain loop returns the greedy stream of the incremental model |
| SpecDecode.GenerateGreedyMtp | ref/qwen4_exp_mtp.py:103-154 | for any drafter the loop ends with exactly the first max_new greedy tokens; drafted is their number, and accepted counts, round by round, the drafts that agree with the greedy tokens up to the first that does not or to max_new |
| SpecDecode.SpecDecodeGreedy | runtime/spec.py:15-76 | the token-draft loop is Run, with room reserved for the corrective token, and refuses fewer than one draft |
| SpecDecode.SpecDecodeBlock | runtime/spec.py:79-147 | the block-draft loop is Run without that reserve |
| SpecDecode.RunIsGreedyPrefix | runtime/spec.py:37-76 | whatever is drafted, the result is the prompt followed by a prefix of the greedy stream |
| SpecDecode.RunIsGreedy | runtime/spec.py:37-76 | without stop ids both loops return the prompt and exactly max_new greedy tokens, for any drafter |
| SpecDecode.PlainForAllHeadsExactly | runtime/spec.py:37-76 | under every draft head the result is plain generation if and only if no stop id comes before the last greedy token, or nothing may be generated |
| SpecDecode.PlainForAllBlocksExactly | runtime/spec.py:109-147 | the same for every block drafter, where no greedy token at all may be a stop id |
| SpecDecode.CutIsLongestFree | runtime/spec.py:176-182 | the cut is the longest prefix free of stop ids |
| SpecDecode.SpecDecodeTrimmed | runtime/spec.py:150-183 | the wrapper returns the prompt and the greedy continuation before its first stop id, for any stop ids and any drafter |
| Blocks.LowestIds | runtime/blocks.py:52-60 | allocation hands out free ids, each once, and keeps no smaller one |
| Blocks.TakeValid | runtime/blocks.py:52-60 | after an allocation free and owned ids still partition 0..capacity-1 |
| Blocks.GiveUndoesTake | runtime/blocks.py:62-77 | freeing what was just allocated restores the pool |
| Blocks.BlocksForIsCeiling | runtime/blocks.py:127-129 | the block count holds the tokens and one block less would not |
| Blocks.RegisterValid | runtime/blocks.py:131-148 | registering a sequence keeps tables and both owner maps in agreement |
| Blocks.ReleaseValid | runtime/blocks.py:160-168 | releasing a sequence keeps tables and both owner maps in agreement |
| Blocks.ReleaseUndoesRegister | runtime/blocks.py:131-168 | releasing undoes registering: same free ids, owners and tables |
| Blocks.NoTablesAllFree | runtime/blocks.py:114-168 | with no sequence registered every id is free |
| Blocks.KVBlockAllocator.Allocate | runtime/blocks.py:52-60 | the lowest free ids are taken, or nothing changes and capacity is reported |
| Blocks.KVBlockAllocator.Free | runtime/blocks.py:62-77 | ids are given back only by their owner |
| Blocks.StateAllocator.Allocate | runtime/blocks.py:95-100 | the lowest free slot is taken, or nothing changes |
| Blocks.HybridKVCoordinator.NewSequence | runtime/blocks.py:131-148 | blocks and slot are taken together; on any failure nothing changes |
| Blocks.HybridKVCoordinator.FreeSequence | runtime/blocks.py:160-168 | everything the sequence owned is free again |
| Scheduling.AdmitRunning | runtime/scheduler.py:168-180 | admitting an accepted request never overflows the coordinator and keeps the invariant |
| Scheduling.PumpAllValid | runtime/scheduler.py:117-136 | a pump keeps the invariant and splits the queue into admitted and kept, both in order |
| Scheduling.PumpLeavesNoneAdmissible | runtime/scheduler.py:117-136 | no request left waiting could still be admitted |
| Scheduling.FinishValid | runtime/scheduler.py:182-188 | finishing returns the resources and keeps the invariant |
| Scheduling.AbortedValid | runtime/scheduler.py:100-115 | aborting a waiting or a running request keeps the invariant |
| Scheduling.AdvancedValid | runtime/scheduler.py:157-166 | an executed action keeps the invariant, whether or not it ends the request |
| Scheduling.ReservationCovers | runtime/scheduler.py:157-180 | the reserved blocks cover position plus generated tokens at all times |
| Scheduling.NoStall | runtime/scheduler.py:117-150 | if every request fits the empty system, an idle system after a pump has an empty queue |
| Scheduling.AdvancedWork | runtime/scheduler.py:157-166 | every executed action uses up at least one unit of ceil(prompt/chunk) + max_new work |
| Scheduling.PumpKeepsWork | runtime/scheduler.py:117-136 | admission moves work from the queue to the running set and loses none |
| Scheduling.Scheduler.Pump | runtime/scheduler.py:117-136 | the deque loop with backfill is that pump |
| Scheduling.Scheduler.Schedule | runtime/scheduler.py:138-150 | one action per running request, in order |
| Scheduling.Scheduler.Advance | runtime/scheduler.py:157-166 | the method's new state is the proved transition |
| Scheduling.Scheduler.Abort | runtime/scheduler.py:100-115 | the method's new state is the proved transition, and it tells whether the request was in flight |
| Batching.Generate | serving/executor.py:366-411 | the single-shot loop, incremental or recomputing, with or without a context limit, returns SingleShot with the budget cut at the limit; at or past the limit an incremental model refuses and a recomputing one generates at most one token |
| Batching.SingleShotIs | serving/executor.py:366-393 | single-shot output is the sampled tokens before the first stop id, at most max_new |
| Batching.ShotReason | serving/executor.py:366-411 | the single-shot reason is "length" when all of the budget was generated, and otherwise "stop", with a stop id as the next token |
| Batching.SampledIsNext | serving/executor.py:1042-1058 | a decode action samples from the logits, and with the sampler state, of the single-shot loop |
| Batching.DecodedOk | serving/executor.py:1042-1068 | a decode action extends the agreement by one token or completes the sequence |
| Batching.SubmittedValid | serving/executor.py:920-945 | submission keeps the engine invariant |
| Batching.CancelledValid | serving/executor.py:957-973 | an abort frees the scheduler's resources, fails the sink once and keeps the invariant |
| Batching.ReapedValid | serving/executor.py:981-1000 | reaping drops only finished sequences with a sink, keeps the order of the rest and the invariant |
| Batching.SteppedValid | serving/executor.py:1034-1082 | a step keeps the invariant that links records, scheduler and sinks |
| BatchingRuns.ReachesValid | serving/executor.py:873-1106 | the invariant holds after every run of submissions, aborts, steps and reaps |
| BatchingRuns.BatchingChangesNoOutput | serving/executor.py:1034-1082 | after any interleaving a finished sequence holds the single-shot tokens and its sink saw them and one terminal event; a sequence in flight or aborted holds a prefix |
| BatchingRuns.RequestsNeverChange | serving/executor.py:920-1082 | no operation rewrites a sequence's prompt, budget or starting sampler state |
| Batching.StepNeverStalls | serving/executor.py:1084-1106 | when every request fits the empty system a step that schedules nothing leaves nothing in flight |
| Batching.SteppedWork | serving/executor.py:1084-1106 | a step uses up one unit of remaining work per scheduled action |
| Batching.BatchedInferenceEngine.Submit | serving/executor.py:920-945 | the method's new state is the proved submission; a prompt over the context limit is refused |
| Batching.BatchedInferenceEngine.Abort | serving/executor.py:957-973 | the method's new state is the proved cancellation |
| Batching.BatchedInferenceEngine.Step | serving/executor.py:1034-1082 | the method's new state is the proved step |
| Batching.BatchedInferenceEngine.RunAll | serving/executor.py:1084-1106 | no request changes; at the end nothing is in flight, every sequence that was not aborted holds its single-shot output, and the texts come in the order of submission; if every request fits the empty system it never stalls and needs at most the remaining work in steps |
| Batching.GenerateBatch | serving/executor.py:1109-1115 | text i is that of the single-shot output of prompt i, whatever the other prompts are; it is refused exactly when a prompt exceeds the context, and succeeds when every prompt fits the pool and the work the step limit |
| ServingRuns.ProtocolHolds | serving/batched_server.py:243-535 | after any interleaving of HTTP threads and executor, steps that fail included: the counter is the admitted, unreleased requests and within 0..max_queued; a request holds a prefix of the single-shot output of its prompt and a stream was sent exactly that; once submitted, its sink is over if and only if the scheduler holds its sequence no longer, and it failed if and only if the sequence was aborted; otherwise it holds all of the single-shot output, ended once, with "length" if and only if it holds as many tokens as it asked for, and else with "stop" |
| ServingRuns.OverIsFinal | serving/batched_server.py:70-91 | no step takes back what was heard or sent, and once a request is over no step changes it: no token and no second terminal event |
| ServingRuns.NeverIdles | serving/batched_server.py:260-272 | because admission checks that a request can run, in every run a step that begins with anything in flight plans an action, and every action uses up remaining work |
| Serving.AfterValid | serving/batched_server.py:243-535 | every step of the HTTP threads, the executor and the engine keeps the protocol invariant, between any two actions |
| Serving.ActionEvents | serving/executor.py:1057-1068 | an action calls back exactly the tokens it generated, and the single-shot reason when, and only when, the scheduler freed the sequence |
| Serving.ReleaseCounts | serving/batched_server.py:252-258 | a release gives back exactly one slot, once per request |
| Serving.AllFailedValid | serving/batched_server.py:524-535 | a failed step, wherever it failed, ends every sink, leaves nothing to step and no record in the engine |
| Serving.BatchedServing.Arrive | serving/batched_server.py:243-272 | a request is invalid if and only if it generates nothing or exceeds the context or the block pool, saturated if and only if the limit is reached, and otherwise takes one slot and joins its queue |
| Serving.BatchedServing.GiveUp | serving/batched_server.py:437-440 | a reader that stops waiting requests an abort of its running sequence and gives its slot back |
| Serving.BatchedServing.DrainSubmits | serving/batched_server.py:473-490 | every queued request is handed to the engine or fails at once |
| Serving.BatchedServing.StepBatch | serving/batched_server.py:449-453 | a step runs its plan in order, each action's callbacks reaching the request, until the end or until it raises |
| Serving.BatchedServing.FailAllBatched | serving/batched_server.py:524-535 | the two loops over the engine's sequences are that transition, whatever the step had already published |
| Serving.BatchedServing.Loop | serving/batched_server.py:443-458 | one round of the executor is the drains, then a step while anything is in flight, or its failure after some of its actions, then a reap |
| Dsml.FindIsFirst | serving/encoding_dsv4.py:819-840 | the search returns the first occurrence |
| Dsml.ReadLoop | serving/encoding_dsv4.py:819-840 | the loop over stop strings cuts at the earliest one |
| Dsml.ParamsParsed | serving/encoding_dsv4.py:874-891 | rendered parameters are read back in order with their string flags |
| Dsml.KeysDistinct | serving/encoding_dsv4.py:879-891 | the parameters of an accepted call never repeat a name |
| Dsml.CallsParsed | serving/encoding_dsv4.py:843-897 | rendered calls are read back in order with their names and arguments |
| Dsml.ParseToolCalls | serving/encoding_dsv4.py:843-897 | the loops that advance the index and collect calls are the parser the round trip is about |
| Dsml.RenderedCallsAre | serving/encoding_dsv4.py:335-350 | the templates produce exactly the text the parser reads |
| Dsml.ParamTemplate | serving/encoding_dsv4.py:153-176 | an argument that is a string is marked as one and written as it is, any other is marked as no string |
| Dsml.RoundTripExactly | serving/encoding_dsv4.py:900-957 | a message is rendered, and parsing returns its reasoning, content and calls, the arguments as a serialized object, if and only if all arguments that are JSON are objects, neither text holds a special token, and a message without an end mark has calls |
| Dsml.RenderParseRender | serving/encoding_dsv4.py:153-200 | when loading and serializing JSON agree, each parsed call's arguments load to the rendered items in order, and rendering the parsed message gives the same text |
| Dsml.SpecialIsThink | serving/encoding_dsv4.py:947-949 | for payloads without the bar character only the think tags are special |
| Dsml.AcceptedIsClean | serving/encoding_dsv4.py:947-949 | whatever the parser accepts has no special token in content or reasoning |
| Dsml.AcceptedText | serving/encoding_dsv4.py:900-957 | an accepted text is its reasoning and content, then the end mark or the calls, and nothing after them but an end mark |
| Bpe.BytesToUnicode | serving/bpe.py:17-30 | the table maps every byte to its character |
| Bpe.CharIs | serving/bpe.py:17-30 | which character: printable bytes stand for themselves, the others are numbered from 256 in order |
| Bpe.CharInjective | serving/bpe.py:17-30 | different bytes get different characters |
| Bpe.BpeSymbols | serving/bpe.py:59-75 | the merge loop ends, keeps the text and leaves no pair that has a rank |
| Bpe.FindBest | serving/bpe.py:66-70 | the scan finds the lowest rank, leftmost |
| Bpe.MergeAllDone | serving/bpe.py:59-75 | the final symbols spell the input and no two neighbours can be merged |
| Bpe.PieceToIds | serving/bpe.py:77-88 | symbols become ids, with one token per byte as fallback, or a missing token is reported |
| Bpe.ByteTokenIs | serving/bpe.py:84-87 | the fallback token of a byte is its two upper-case hexadecimal digits in brackets |
| Bpe.FinalCovered | serving/bpe.py:59-88 | when the symbol of every byte and the merge of every ranked pair have invertible ids, so has every final symbol of every text |
| Bpe.RoundTrip | serving/bpe.py:92-108 | under that condition on the tables, decoding an encoded text gives back every text that the pre-tokens tile |
| SpecialTokens.MatchIsLongest | serving/tokenizer.py:122-127 | the first match in the sorted list is the longest special token at that position |
| SpecialTokens.EncodeText | serving/tokenizer.py:113-137 | the scan with its buffer encodes the segments in order |
| SpecialTokens.DecodeIds | serving/tokenizer.py:139-156 | runs of ordinary ids are decoded together, special ids become their text |
| SpecialTokens.RoundTrip | serving/tokenizer.py:113-156 | decode(encode(text)) is text for every text, when every byte's symbol and every merge has an invertible id that is not special, special tokens have ids that lead back to them, and pre-tokens tile |
| SpecialTables.BuildSpecial | serving/tokenizer.py:69-101 | the loops build the injected vocabulary, the special tokens longest first, their ids and the inverse |
| SpecialTables.InjectedExtends | serving/tokenizer.py:87-94 | injecting added tokens keeps every id of the vocabulary and keeps it invertible, when new tokens have new ids |
| SpecialTables.SpecialsAre | serving/tokenizer.py:87-101 | the special tokens are exactly the added ones and the named ones of the vocabulary; each is in the vocabulary under its special id, which leads back to it |
| SpecialTables.BuiltOkExactly | serving/tokenizer.py:87-101 | the built tables meet the round trip's condition if and only if no special token is a byte's symbol or what a ranked pair merges into |
| SpecialTables.RoundTrip | serving/tokenizer.py:69-156 | for the tables as they are built, special tokens included, decode(encode(text)) is text for every text, when no special token is such a symbol and pre-tokens tile |
| SpecialTables.ByteSymbolSpecial | serving/tokenizer.py:139-156 | a special token that is the symbol of a one-byte character is what that character comes back as |
| ImageBlock.BuildImageBlock | serving/image_processor.py:185-203 | token by token: padding up to the alignment, the start, each pair of rows column by column with line ends and the row that makes their number even, padding, the end; and patch by patch: the permutation lists the grid in that order |
| ImageBlock.FillImageIndex | serving/image_processor.py:195-197 | every slot holds its patch number, the others -1 |
| ImageBlock.OrderInverts | serving/image_processor.py:193-194 | the pairwise row interleaving moves every slot to exactly one place |
| ImageBlock.BlockAligned | serving/image_processor.py:51-58 | the content starts at a multiple of four, its length is one, and the block has the pre-pad plus the promised token count |
| ImageBlock.KthPatchToken | serving/image_processor.py:193-203 | the k-th image token is the reordered slot of patch perm[k] |
| ImageBlock.PermIsPermutation | serving/image_processor.py:195-199 | perm lists every patch exactly once |

## Left out

- GPU kernels, device decode drivers, HTTP, command line, diagnostics, configuration and file reading: input, output and foreign calls.
- Transformer forward passes, rotary embeddings, norms, sampling probabilities, the vision tower and every rounding of floating point: no exact law; deterministic parameters stand for them.
- The depthwise convolution, the gating around the delta rule and its batch and head axes: one slice is modelled.
- The indexer's own top-k of the overlap layers: future rows are masked after the selection there, so prefill and decode differ once rows exceed its budget; the layer cache model is that of a layer without an indexer.
- Quantization-aware rounding of cached rows and image-visible windows.
- Draft states seeded in mid-context for block selection: absolute positions and cache rows differ there.
- `GenerateGreedyMtp` with no draft tokens and a positive budget: the loop would not end; the wrapper refuses it.
- The name patterns that choose a sharding plan: a tensor's kind is a value; tensors of one or three dimensions are read as rows. The second checkpoint family's sharding class.
- TpShard.RankDequantIsSlice: takes a scale grid that has exactly the blocks of the weight, and one block size for slicing and dequantizing, which is what the defaults give.
- Growing a registered sequence's block table: the scheduler reserves the worst case at admission and never calls it.
- Heap order inside the allocators: a free heap is the set of its ids, asked only for the smallest.
- Request and sink objects shared by reference: the scheduler, the engine and the server hold them as values in maps.
- BatchingRuns.BatchingChangesNoOutput: a sink receives its terminal event only when the budget is positive, as in the code; requests with an empty prompt and no budget are excluded.
- Attaching a sink after submission, and the text cached for a sequence, which is decoded here when results are read.
- ServingRuns.ProtocolHolds: the release flag and the lock are one atomic step, and so is an action with its callbacks; an action that raises midway has not called back and counts as not run; the scheduler's load is not bounded by the limit, since a request that timed out may still be queued; exclusive jobs are their texts and their end. Cutting a stream into text deltas.
- Fairness: backfill can starve a large request under endless arrivals.
- Dsml.RoundTripExactly: for payloads without the bar character and names and keys without quotes; white space in the name pattern is the ASCII one; a JSON value that is no string is its serialized text. The user, tool and developer roles, and merging of tool messages.
- Bpe.RoundTrip: byte-fallback tokens do not decode back to their byte, so the tables must cover every byte and merge.
- SpecialTables.RoundTrip: excludes a special token that ranked pairs merge into, though one of printable ASCII is always cut out first. Reading the tokenizer's files.
- Image loading and resizing, whose search uses floating-point square roots.
- NGram.BuildLayout: the padded size of totals from 2^53 on, where the rounded quotient may miss the next multiple, and of divisors beyond 2^1022.
- The memory planner and the simulated collectives: arithmetic with easy members only.
