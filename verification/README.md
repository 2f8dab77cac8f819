# LLaDA-Hybrid: a verified model

A Dafny model of the hard core of LLaDA-Hybrid, a block-diffusion language model whose layers mix softmax
attention with a recurrent "hybrid" attention (block softmax plus a Hedgehog linear state). It covers the two
attention recurrences and their BD3LM training form, the layer stack with and without the prefix cache, the
block-diffusion generator, the reference extend kernels, MoE routing and dispatch, the nucleus filter, the
round barrier of the multi-turn benchmark and the span layout of the trace converter.

`dafny verify dfyconfig.toml` checks everything.

## How it is modelled

- Tensors are sequences of exact reals, one head and one batch row at a time; heads, key/value groups and batch
  rows appear where the code loops over them (`Layers`, `Kernel`, `Generate`). Vector operations are total: a
  missing coordinate reads as 0.
- `exp` is a parameter. `IsExp` asks that it is positive, monotone and 1 at 0; where weights are characterised by
  their ratios, `Multiplies` asks for exp(x + y) = exp(x) exp(y). A masked key has softmax weight 0
  if its row holds a valid key and 1 if it does not, which is what the finite fill value gives in the code
  (`FilledWeights`).
- `topk`, `argsort` and the descending sort are parameters with a contract and no fixed tie-breaking, so every
  result holds for any tie-breaking.
- A layer is a projection of (hidden, position) to per-head q, k, v, then one of the two attentions, then a
  pointwise `finish`. Embedding, logits and sampling are pointwise functions.
- Loops and objects keep the code's form. The attention block loops, the extend kernels, the MoE dispatch and the
  denoising loops are methods; the token buffer `x` is a two-dimensional array that every denoising step writes in
  place; `BlockDiffusionCache`, `WorkloadGenerator` and the span layout are classes. Each is proved against a
  specification function, and the laws are proved about that function.
- The benchmark's two threads are two program counters of one state machine. Every access to what they share is a
  step of its own: the sender's window test, pop and launch; the handler's take, round count, completion count,
  requeue, barrier count and each turn of its release loop. Any step of one may come between any two of the other.
  Responses may fail.

Three places where the text around the code says something else, and the model follows the code:

- The formula in the header and docstring of `hybrid_attention.py` writes exp(score). The code uses
  exp(score - row maximum), which is not interchangeable once the linear term is non-zero.
- The cached and the recomputed generator are meant to agree. They do for softmax and hybrid layers whose attention
  blocks divide the generation blocks. A pure linear layer reads key validity out of the attention mask, and on a
  one-block window reads "no key valid" (`AttentionMask`, `LinearMask`). `CacheExact` gives a decoder whose two runs
  return different tokens, and the exact condition on a call under which the cache is transparent for every aligned
  model. `Misaligned` does the same for attention blocks of any size.
- No two spans of a process are meant to overlap on a line. `check_overlap` compares with two neighbours only, which
  is enough as long as every span placed passed it: spans of any length, negative ones too, then stay apart. But a
  zero-length span whose request already has a line on the process is placed there without the test, and if it would
  have failed it, it overlaps a span of the line and can hide it from later tests (`SpanRuns.EmptySpanHides`). The
  layout is free of overlaps exactly if every zero-length span would have passed (`SpanRuns.LayoutClean`).

## Modules

| module | content |
|---|---|
| `Wrappers`, `Vectors`, `Sequences`, `BlockMath`, `Selection` | options, vectors and matrices, slices, block arithmetic, top-k |
| `Softmax`, `BlockAttention`, `AttentionForward`, `AttentionCalls`, `Bounds`, `Written` | the two recurrences, BD3LM, quadratic form, several calls together, bounds, the results written out |
| `AttentionMask`, `Layers`, `PrefixCache`, `LinearMask` | mask inference, the layer stack, the cache, pure linear heads on one block |
| `Decode`, `DecodeProperties`, `StepLaws`, `Generate` | denoising, its laws, what a step fills and overwrites, the in-place generator |
| `SteadyDecode`, `Probe`, `SkewModel` | decoders that fill a block in one step; a layer that reads one position; a model that shows where attention blocks are cut |
| `CacheExact`, `Misaligned`, `EarlyStop`, `StopProbe` | exactly when the cache and the early stop are unobservable |
| `KernelMath`, `Kernel`, `KernelHeads`, `KernelRuns` | the reference extend kernels, one head of one request, and several runs side by side |
| `Moe`, `Routing`, `Nucleus` | expert dispatch, group-limited routing, nucleus filter |
| `Barrier`, `BarrierLoss`, `BarrierOrder`, `Spans`, `SpanRuns` | multi-turn benchmark, what a lost request does to it, the order of requests, span layout |

## Model

| member | source | states |
|---|---|---|
| Softmax.FilledWeightsMass | llada_hybrid/hybrid_attention.py:223-234 | for any scores, masked or not, each weight exp(score - row max) lies in [0, 1] and the partition function is at least 1 |
| Softmax.HedgehogMass | llada_hybrid/hybrid_attention.py:111-128 | every Hedgehog feature is non-negative and the 2F features of any vector sum to exactly 2 |
| Softmax.WeightsRatio | llada_hybrid/hybrid_attention.py:223-234 | two unmasked keys are weighed in the ratio of the exponentials of their scores, before and after filling, and a masked key next to an unmasked one weighs nothing |
| Softmax.SoftmaxRatio | llada_hybrid/modeling_llada2_moe.py:772 | softmax known by its laws: weights sum to 1, none is negative, masked entries have none, unmasked ones are in the ratio of the exponentials of their scores |
| Softmax.HedgehogNegative | llada_hybrid/hybrid_attention.py:111-128 | the features of -x are those of x with the two halves exchanged |
| Softmax.HedgehogRatio | llada_hybrid/hybrid_attention.py:111-128 | in x @ W the first half of the features follows the exponentials and the second half those of the negatives; each half sums to 1 |
| BlockAttention.ForwardSplit | llada_hybrid/hybrid_attention.py:321-393 | cutting a sequence at any block boundary and passing the returned (S, Z) on gives the outputs and the final state of one pass, for both attention classes and any initial state |
| BlockAttention.RunStateIsSummary | llada_hybrid/hybrid_attention.py:373-388 | the state after any run of blocks is one closed-form sum over all the keys seen |
| BlockAttention.RowIsQuadratic | llada_hybrid/hybrid_attention.py:217-239 | a row read off the state equals attention with one explicit weight phi(q).phi(k) per prior valid key and a clamped shared denominator |
| BlockAttention.RecurrentIsQuadratic | llada_hybrid/linear_attention.py:155-190 | each output of a run over arbitrary blocks equals that explicit quadratic sum |
| AttentionForward.ForwardIsQuadratic | llada_hybrid/hybrid_attention.py:362-393 | output i of `forward`, padding included, is quadratic attention over every position before i's block and over that block |
| AttentionForward.HybridForward | llada_hybrid/hybrid_attention.py:310-393 | the block loop (query, then update) with padding, optional initial state and a key mask of any length computes `Forward` and `FinalState` of the padded input, in which a mask longer than the sequence makes padding count as keys; with a mask that fits, of the unpadded input |
| AttentionForward.LinearForward | llada_hybrid/linear_attention.py:79-194 | the loop that updates first and then queries computes the same specification for the linear kind; key validity of a batch row comes from its padding mask of any length, else from the attention mask of the whole batch, else every key is valid |
| AttentionCalls.HybridResumed | llada_hybrid/hybrid_attention.py:321-393 | a call on the part before any block boundary, then one on the rest with the returned S and Z, gives the outputs and the state of one call on the whole, from any start and under any mask |
| AttentionCalls.LinearResumed | llada_hybrid/linear_attention.py:79-194 | the same for the linear class |
| AttentionCalls.HybridStarts | llada_hybrid/hybrid_attention.py:362-369 | with S or Z given alone, or neither, the missing part counts as zeros |
| AttentionCalls.LinearStarts | llada_hybrid/linear_attention.py:155-165 | the same for the linear class |
| AttentionCalls.LinearPadded | llada_hybrid/linear_attention.py:124-145 | with a padding mask given, any two attention masks lead to the same outputs and state |
| Written.HybridWritten | llada_hybrid/hybrid_attention.py:321-393 | output i, coordinate d, in the tensors q, k, v and the mask: gate times the sum over i's block with weights in the ratio of exp(scale q.k), plus the sum over all earlier keys with weights phi(q).phi(k), over the shared clamped denominator |
| Written.LinearWritten | llada_hybrid/linear_attention.py:155-190 | output i, coordinate d, in the tensors: the sum over all keys up to the end of i's block with weights phi(q).phi(k), over the clamped sum of the weights |
| AttentionMask.InferKeyValid | llada_hybrid/linear_attention.py:36-55 | over all rows of a batch: a key of a row is valid exactly if some query attends to it, by its flag, by being finite, or, if the cut mask of the whole batch holds no minus infinity, by being non-zero; keys the mask does not reach are invalid |
| AttentionMask.MinusInfIff | llada_hybrid/modeling_llada2_moe.py:409-415 | the generator's block-triangular mask, made additive and repeated over a batch, holds a minus infinity if and only if the window has more than one block |
| AttentionMask.GeneratorKeys | llada_hybrid/linear_attention.py:40-50 | on that mask the inference makes every key of every row valid if the window has more than one block, and none if it has one |
| AttentionForward.PaddingNeutral | llada_hybrid/hybrid_attention.py:325-360 | appending any number of masked positions with arbitrary contents changes neither the outputs of the original positions nor the final (S, Z), including whole masked blocks |
| AttentionForward.HybridBd3lm | llada_hybrid/hybrid_attention.py:397-534 | the two-stream loop computes `Staircase` for the [noisy, clean] input; a key mask shorter than the input leaves the rest masked |
| AttentionForward.HybridBlocks | llada_hybrid/hybrid_attention.py:502-526 | its block loop: both halves read the clean state before it is updated |
| AttentionForward.LinearBd3lm | llada_hybrid/linear_attention.py:196-332 | the linear two-stream loop computes the same `Staircase` |
| AttentionForward.LinearBlocks | llada_hybrid/linear_attention.py:294-323 | its block loop: noisy keys are folded into a local copy only, the clean state alone is carried |
| AttentionForward.StaircaseIsSequential | llada_hybrid/hybrid_attention.py:397-534 | the clean half is `forward` on the clean sequence, and every noisy block is the last block of `forward` on the clean blocks before it followed by that noisy block, ragged last block included |
| AttentionCalls.HybridHalves | llada_hybrid/hybrid_attention.py:397-534 | the second half of a BD3LM call is a `forward` call on the second half of the tensors and the mask; a block of the first half is the last block of a `forward` call on the clean positions before it followed by the noisy block |
| AttentionCalls.LinearHalves | llada_hybrid/linear_attention.py:196-332 | the same for the linear class |
| Bounds.UpdateWithin | llada_hybrid/hybrid_attention.py:384-386 | an update keeps \|S[f,d]\| <= M Z[f] and Z[f] >= 0 |
| Bounds.ReachableWithin | llada_hybrid/hybrid_attention.py:384-386 | every state reachable from a bounded one by any blocks keeps that bound |
| Bounds.OutputWithin | llada_hybrid/hybrid_attention.py:217-239 | a row read from a bounded state is at most M in every coordinate, M bounding the visible values |
| Bounds.ForwardWithin | llada_hybrid/hybrid_attention.py:310-393 | over a whole pass every coordinate of every output is at most M in magnitude |
| Bounds.FreshForwardWithin | llada_hybrid/hybrid_attention.py:310-393 | the same for a pass without an initial state, with no assumption about any state |
| Bounds.FirstOutputsAreSoftmax | llada_hybrid/hybrid_attention.py:321-393 | every output of `forward` in the first block, padding included, differs from exact softmax over that block by at most M eps / (w + eps) |
| Layers.SoftmaxHeadSplit | llada_hybrid/attention.py:273-313 | a softmax head under the block-causal mask on prefix + block equals itself on the prefix, then the block attending to cached K/V with no mask |
| Layers.RecurrentHeadSplit | llada_hybrid/attention.py:240-271 | the same split for hybrid and linear heads, the cache being (S, Z), and the committed state is the state of the whole |
| Written.SoftmaxWritten | llada_hybrid/attention.py:26-60 | head h of a softmax layer at position i: the values of key/value head h / groups summed with softmax weights, by their laws, of query head h over the keys of that head in i's block and before |
| Written.HeadAlone | llada_hybrid/attention.py:26-31 | head h, softmax or recurrent, is the one head of a one-group layer on query head h and key/value head h / groups |
| Written.LayerWritten | llada_hybrid/attention.py:26-60 | a layer's output at a position is its `finish` on the hidden state there and on the outputs of all heads there, in order |
| Layers.LayerSplit | llada_hybrid/attention.py:225-313 | a layer on prefix + block equals the layer on the prefix followed by the cached layer on the block |
| Layers.CommitSplit | llada_hybrid/cache.py:46-78 | committing a block to a prefix's slot gives the slot of prefix + block |
| Layers.StackSplit | llada_hybrid/modeling_llada2_moe.py:190-235 | the split holds through a stack of any number of layers of mixed kinds |
| Layers.CommittedIsRecomputed | llada_hybrid/modeling_llada2_moe.py:557-572 | after n commits every layer's slot is what recomputing the first n blocks from their tokens would put there |
| Layers.CachedLogitsAgree | llada_hybrid/modeling_llada2_moe.py:654-667 | logits of the active block from the cache equal those of the full-window forward |
| Layers.LinearKeysIff | llada_hybrid/linear_attention.py:124-145 | what the recomputing generator hands to pure linear heads over n + 1 blocks, in every row of a batch, is the all-valid mask if n > 0 and the none-valid mask if n = 0 |
| LinearMask.PureLinearBlind | llada_hybrid/linear_attention.py:36-55 | when the mask is read as "no key valid" every pure linear head returns the zero vector, whatever its input |
| LinearMask.GeneratorEntries | llada_hybrid/linear_attention.py:124-145 | `LinearForward` given the generator's mask works on entries that are all valid or all masked, by whether there is more than one block |
| LinearMask.CachedPureLinearDiffers | llada_hybrid/linear_attention.py:124-190 | for any exp, any block length and any hidden states, a unit layer outputs 1 everywhere with the cache and 0 everywhere recomputed |
| PrefixCache.BlockDiffusionCache.constructor | llada_hybrid/modeling_llada2_moe.py:536-555 | a fresh cache holds the empty table: no K/V for softmax layers, zero (S, Z) for the others |
| PrefixCache.BlockDiffusionCache.UpdateKv | llada_hybrid/cache.py:46-56 | appends to one layer's K/V for every row and leaves every other layer alone |
| PrefixCache.BlockDiffusionCache.UpdateRecurrentState | llada_hybrid/cache.py:75-78 | replaces one layer's state and nothing else |
| PrefixCache.AppendedCommits | llada_hybrid/cache.py:46-56 | appending new K/V to a present or absent slot equals `Commit` on every row |
| PrefixCache.LayerForward | llada_hybrid/attention.py:225-313 | returns the cached layer's outputs on the table at entry; "read" leaves the table unchanged, "commit" changes exactly this layer's slot |
| PrefixCache.CachedForward | llada_hybrid/modeling_llada2_moe.py:190-235 | although commits mutate the cache during the pass, logits are those of the table at entry, and the new table commits every layer |
| PrefixCache.CommitTableRow | llada_hybrid/modeling_llada2_moe.py:557-572 | a batched commit is an independent commit of each row |
| Selection.TopKAvoidsMasked | llada_hybrid/modeling_llada2_moe.py:476-488 | a top-k no larger than the number of finite entries chooses no masked entry |
| Decode.BufferFits | llada_hybrid/modeling_llada2_moe.py:405-421 | the rounded-up buffer holds prompt and answer, and the first generated block is the one that holds the prompt's end |
| Decode.FirstEos | llada_hybrid/modeling_llada2_moe.py:527-533 | the position found is the first end token, and there is none before it |
| DecodeProperties.TransferIsMasked | llada_hybrid/modeling_llada2_moe.py:474-488 | threshold or top-k fallback, only masked positions are unmasked |
| DecodeProperties.StepKeeps | llada_hybrid/modeling_llada2_moe.py:433-504 | a step changes nothing outside the active block and no unmasked prompt position inside it |
| DecodeProperties.BlocksFrozen | llada_hybrid/modeling_llada2_moe.py:423-518 | once the loop has left a block its tokens never change in the rest of any run |
| DecodeProperties.PromptFrozen | llada_hybrid/modeling_llada2_moe.py:418-518 | every unmasked prompt token, and every token of a full prompt block, is in the final buffer unchanged |
| DecodeProperties.StepProgress | llada_hybrid/modeling_llada2_moe.py:474-504 | if the sampler never returns the mask token, each step removes at least min(num_to_transfer, remaining) masks of every row and adds none |
| StepLaws.SampledFrom | llada_hybrid/modeling_llada2_moe.py:449-473 | the sample for a position of the block is drawn from the penalised logits that a forward pass over the whole window gives that position |
| StepLaws.PenaltyAt | llada_hybrid/modeling_llada2_moe.py:462-470 | a positive logit of a token in the window, the mask aside, is divided by the penalty and any other multiplied; other logits stay, and a penalty of at least 1 raises none |
| StepLaws.EditedIff | llada_hybrid/modeling_llada2_moe.py:492-504 | a position that holds a token becomes the sampled token if and only if it lies behind the prompt and its confidence exceeds the editing threshold; otherwise it is unchanged |
| StepLaws.StepFilled | llada_hybrid/modeling_llada2_moe.py:474-490 | exactly the masked positions above the threshold are filled with their samples if they are at least num_to_transfer; otherwise exactly min(num_to_transfer, remaining), none beaten in confidence by one left out; the others stay masked |
| StepLaws.StepBudget | llada_hybrid/modeling_llada2_moe.py:391 | the step budget is the largest number up to `steps` that times minimal_topk fits in gen_length |
| StepLaws.DenoiseEnds | llada_hybrid/modeling_llada2_moe.py:432-507 | a block's loop takes whole steps and ends when the budget is used, when one more step without a mask would exceed max_post_steps, or after the first step that finds no mask and changes nothing |
| StepLaws.AnswerTrimmed | llada_hybrid/modeling_llada2_moe.py:518-534 | with early stop the answer is the generated part up to and including its first end token and only end tokens behind it; without, it is the generated part |
| DecodeProperties.DenoiseClears | llada_hybrid/modeling_llada2_moe.py:433-507 | from any step count, a block whose remaining masks fit the remaining step budget ends mask-free |
| DecodeProperties.BlockCleared | llada_hybrid/modeling_llada2_moe.py:391-507 | every visited block ends mask-free if effective steps times num_to_transfer is at least block_length |
| DecodeProperties.AnswerUnmasked | llada_hybrid/modeling_llada2_moe.py:391-523 | under that condition, without early stop, no answer of any row holds a mask token |
| DecodeProperties.StopAgrees | llada_hybrid/modeling_llada2_moe.py:512-518 | a run with early stop and one without either end equal or agree on all positions up to the stop |
| EarlyStop.KeepsUp | llada_hybrid/modeling_llada2_moe.py:512-534 | in a batch, whether or not blocks are cleared: a row of the full run that has ended at every block end inside the answer at which some row has, gets its reference answer when the batch is stopped early |
| DecodeProperties.EarlyStopTransparent | llada_hybrid/modeling_llada2_moe.py:406-534 | for a one-row batch early stop is unobservable, also when the last block overhangs the requested length |
| EarlyStop.StoppedBy | llada_hybrid/modeling_llada2_moe.py:512-516 | if a row of the full run has ended by the end of block m, the stopped run touches nothing behind block m |
| EarlyStop.EarlyStopExact | llada_hybrid/modeling_llada2_moe.py:512-534 | for a decoder that clears its blocks: a row's stopped answer is its reference answer, and is free of masks, if and only if at every block end inside the answer at which some row has ended, this row has ended too |
| StopProbe.EarlyStopIff | llada_hybrid/modeling_llada2_moe.py:391-534 | with enough steps: the batch-wide stop gives every row its reference answer for every model, sampler and end token if and only if all prompts are the same or the answer has no second block |
| StopProbe.MarkDiffers | llada_hybrid/modeling_llada2_moe.py:391-534 | for any two different prompts and any configuration with enough steps and a second block, a concrete decoder ends one row and cuts the other off |
| EarlyStop.OneRowUnmasked | llada_hybrid/modeling_llada2_moe.py:391-534 | the answer of a one-row batch holds no mask token, stopped early or not |
| EarlyStop.PairDiffers | llada_hybrid/modeling_llada2_moe.py:512-534 | two rows of which the first ends at once: the second returns a mask token where the full run has an answer |
| DecodeProperties.RunAgree | llada_hybrid/modeling_llada2_moe.py:630-743 | from any buffer and block the cached and the recomputed block loops produce the same buffer |
| DecodeProperties.CachedEqualsUncached | llada_hybrid/modeling_llada2_moe.py:575-757 | the cached generator returns exactly what the recomputing one returns, over whole runs, any batch, stack and stopping mode |
| SteadyDecode.TransferAll | llada_hybrid/modeling_llada2_moe.py:474-489 | when every sample is confident all masked positions are transferred, whatever num_to_transfer is |
| SteadyDecode.DenoiseFills | llada_hybrid/modeling_llada2_moe.py:433-507 | if the samples of a block do not change as it fills, the loop with its step and post-step counts leaves exactly its masks replaced |
| SteadyDecode.FirstGenerated | llada_hybrid/modeling_llada2_moe.py:418-534 | then every answer starts with the sampled token, in both modes and with or without early stop |
| CacheExact.CachedRunDiffers | llada_hybrid/modeling_llada2_moe.py:359-757 | a concrete decoder with one pure linear layer, for any exp, top-k and stopping mode: on any prompt shorter than a block the two generators return different tokens |
| CacheExact.CacheTransparentIff | llada_hybrid/modeling_llada2_moe.py:359-757 | with pure linear layers allowed, the two generators agree for every aligned model, sampler, batch and stopping mode if and only if the prompt fills a block or no denoising step can be taken (effective steps < 1 or max_post_steps < 0) |
| Misaligned.AlignmentIff | llada_hybrid/modeling_llada2_moe.py:359-757 | for a given attention block size, the two generators agree for every stack of softmax and hybrid layers, sampler, batch and stopping mode if and only if that size divides block_length, or no second block is generated, or no denoising step can be taken |
| Misaligned.FirstLogits | llada_hybrid/modeling_llada2_moe.py:575-757 | on the first block the two generators see the same logits, whatever the attention block size |
| Misaligned.SkewDisagrees | llada_hybrid/modeling_llada2_moe.py:359-757 | otherwise a concrete two-layer model with that attention block size makes the two generators return different tokens |
| SkewModel.MixedAt | llada_hybrid/hybrid_attention.py:362-393 | recomputed, if the sizes do not divide, the last key of the first generation block shares an attention block with the first key of the second: their values do not cancel |
| SkewModel.CachedMixedAt | llada_hybrid/hybrid_attention.py:362-393 | with the first generation block in the carried state the same two values cancel exactly |
| Generate.InitBuffer | llada_hybrid/modeling_llada2_moe.py:418-419 | a fresh buffer holds the prompts followed by mask tokens |
| Generate.WriteTransfers | llada_hybrid/modeling_llada2_moe.py:502-504 | the in-place write changes exactly the chosen positions of one row's active block |
| Generate.SampleBlock | llada_hybrid/modeling_llada2_moe.py:451-472 | with or without cache, returns the samples of the active block of every row and leaves the cache's content as it was |
| Generate.TransferBlock | llada_hybrid/modeling_llada2_moe.py:474-504 | the per-row loops leave the array holding `Step` of its rows |
| Generate.DenoiseBlock | llada_hybrid/modeling_llada2_moe.py:433-507 | the `while True` loop with its breaks leaves the array holding `Denoise`, and the cache still matches the prefix |
| Generate.CacheHoldsStep | llada_hybrid/modeling_llada2_moe.py:729-733 | committing the next block keeps "the cache is the recomputed prefix" for every row |
| Generate.ReadLogits | llada_hybrid/modeling_llada2_moe.py:654-667 | under that invariant a read pass returns the logits of the window |
| Generate.CommitBlockToCache | llada_hybrid/modeling_llada2_moe.py:557-572 | the invariant moves from n to n + 1 blocks |
| Generate.Prefill | llada_hybrid/modeling_llada2_moe.py:615-627 | a fresh cache holds exactly the full prompt blocks |
| Generate.ReadAnswers | llada_hybrid/modeling_llada2_moe.py:518-534 | reads every row's answer out of the buffer and, with early stop on, overwrites what follows its first end token |
| Generate.Generate | llada_hybrid/modeling_llada2_moe.py:359-534 | both generators, in place, return `Generated` for their mode |
| KernelMath.RefRowIsRow | kernel/reference.py:124-160 | the kernel's half-by-half, unmasked row equals the attention module's row |
| KernelMath.RefUpdateIsUpdate | kernel/reference.py:162-180 | updating the positive and the negative half separately equals the module's update |
| KernelMath.OneBlock | kernel/reference.py:209-277 | one request of length up to the block size equals `forward` on it, though the module pads and masks and the kernel does not |
| Kernel.BuildPlan | kernel/state.py:46-76 | a plan is made exactly when every length is in 1..block_size, the two errors are told apart, and the offsets are prefix sums |
| Kernel.PlanPartitions | kernel/state.py:66-70 | every token below the total belongs to exactly one request |
| Kernel.ExtendHead | kernel/reference.py:110-180 | one (request, head) writes its own rows and its own state entry and nothing else, from the entry it read before, also when both states are one |
| Kernel.ExtendRequest | kernel/reference.py:103-180 | all heads of a request: each entry of its slot is the heads' writes in order, each row is what its head read |
| Kernel.Extend | kernel/reference.py:66-182 | the whole batch, for separate states or one state in both roles: every entry of the written state is the writes of the requests that own its slot in order, every row comes from what its head read, rows past the last request are zero, and a wrong weight count is an error that writes nothing |
| KernelHeads.ExtendHeads | kernel/reference.py:66-270 | from one state into another, head h of request r gets the rows of `forward` of a single head with gate h, W[h / groups] or W[h], on its own queries and its group's keys and values from the entry read; with one request to a slot the entry written is its final state |
| KernelHeads.ExtendRegated | kernel/reference.py:157-160 | two runs that differ in the gates of other heads give head h the same rows |
| Kernel.SameGroup | kernel/reference.py:162-180 | all query heads of a group write the same new state |
| KernelRuns.SeparateCell | kernel/reference.py:162-180 | with separate states the heads of a group leave one entry, whichever of them one looks at |
| KernelRuns.LastWriterWins | kernel/reference.py:103-180 | with separate states the last request that owns a slot decides it, and a slot without an owner stays |
| KernelRuns.SlotAlone | kernel/reference.py:220-277 | a request that owns its slot alone finds the slot as the batch found it and leaves it as a run of its own would |
| KernelRuns.OrderIrrelevant | kernel/reference.py:220-277 | requests with slots of their own leave the same entries in any order |
| KernelRuns.SinglyIsBatched | kernel/reference.py:220-277 | two runs of the kernel: one batched call, and one call per request on its own token slice in any order; with distinct slots both leave equal states and give every request the same rows, with separate states or one |
| KernelRuns.ExtendSingly | kernel/reference.py:220-277 | the second of those runs: its state is the requests served in the given order, its rows are those of each request alone |
| KernelRuns.ExtendPermuted | kernel/reference.py:220-277 | two calls on a batch and on its permutation, given by slots and token slices: equal states, and every request's rows equal |
| KernelRuns.ExtendBoth | kernel/reference.py:185-277 | on replicated weights and states, read apart from written, the shared-state and the per-query-head kernels return equal outputs and write states that are replicas again |
| KernelRuns.AliasedCell | kernel/reference.py:103-180 | if heads read the entry they write, the heads of a group fold the block in once each |
| KernelRuns.ExtendAliased | kernel/reference.py:103-180 | two calls, one with a single state in both roles: a group of g heads leaves its entry after g folds, the head of rank j computes its rows from the entry after j folds, and the entry is the intended one if and only if g = 1 |
| KernelRuns.ExtendBlocks | kernel/reference.py:209-277 | one call per block, each reading the state the call before it wrote: every head's rows are its multi-block `forward` and the last state is its final state, a short last block included |
| Moe.TokensPerExpert | llada_hybrid/moe.py:115-117 | scattering ones and summing columns counts each expert's occurrences in the flattened ids |
| Moe.SegmentAt | llada_hybrid/moe.py:118-132 | a sorted position lies in expert i's segment if and only if the pair sorted there is routed to i |
| Moe.RunSegments | llada_hybrid/moe.py:118-134 | the concatenated outputs are one per (token, slot) pair, each from that pair's expert on that pair's token |
| Moe.Unsort | llada_hybrid/moe.py:135-136 | the scatter inverts the sort |
| Moe.MoeInfer | llada_hybrid/moe.py:113-143 | sort, segment, unsort and weighted sum: coordinate d of a token is the sum over its slots of weight times the output of the slot's expert on the token |
| Moe.MoeTraining | llada_hybrid/moe.py:96-104 | the masked training path computes the same sum |
| Moe.MixturePermuted | llada_hybrid/moe.py:96-143 | permuting a token's slots, ids and weights together leaves the result as it was |
| Routing.TopTwoSumIsBest | llada_hybrid/moe.py:46 | a group's score is attained by two of its experts and no pair sums to more |
| Routing.GroupsAreBest | llada_hybrid/moe.py:46-47 | exactly topk_group groups are chosen and no other scores higher |
| Routing.AllowedSize | llada_hybrid/moe.py:48-54 | the expanded mask allows exactly groups times experts-per-group experts |
| Routing.RoutingCorrect | llada_hybrid/moe.py:44-57 | top_k distinct experts are chosen; they are the best allowed ones if and only if top_k fits in the allowed groups |
| Routing.GateWeights | llada_hybrid/moe.py:59-71 | whatever order top-k lists the routed experts in: they are top_k distinct experts as the dispatch needs them; the weight of each is scaling times its own score over the sum of the scores + 1e-20, and together they are strictly less than the scaling factor |
| Nucleus.RemovalMask | llada_hybrid/modeling_llada2_moe.py:772-775 | after the in-place shift, rank i is removed exactly when i > 0 and the mass before it exceeds p |
| Nucleus.ScatterMask | llada_hybrid/modeling_llada2_moe.py:776 | the mask goes back through the sort permutation |
| Nucleus.NucleusExists | llada_hybrid/modeling_llada2_moe.py:768-777 | for p < 1 there is a shortest prefix of the descending order with mass above p |
| Nucleus.KeptIff | llada_hybrid/modeling_llada2_moe.py:772-775 | being in that prefix is the same as not being removed |
| Nucleus.SortedProbs | llada_hybrid/modeling_llada2_moe.py:768-772 | softmax of the sorted logits is the tokens' softmax in sorted order |
| Nucleus.TopP | llada_hybrid/modeling_llada2_moe.py:768-777 | with the tokens' softmax probabilities in descending order, exactly the tokens of the shortest non-empty prefix with mass above p survive; p absent or p >= 1 changes nothing |
| Barrier.InitInv | sglang/benchmark/hicache/bench_multiturn.py:234-292 | the constructor's state satisfies the invariant |
| Barrier.PopInv | sglang/benchmark/hicache/bench_multiturn.py:406 | popping any ready request, or the first, keeps the invariant |
| Barrier.LaunchInv | sglang/benchmark/hicache/bench_multiturn.py:407-409 | launching the popped request keeps it, whatever the handler did since the window test |
| Barrier.RespondInv | sglang/benchmark/hicache/bench_multiturn.py:388-394 | answering any in-flight request keeps it |
| Barrier.FailInv | sglang/benchmark/hicache/bench_multiturn.py:444-447 | taking a failed response keeps it: the client is given up and has no request anywhere |
| Barrier.RecordInv | sglang/benchmark/hicache/bench_multiturn.py:458-459 | counting a client's round keeps it |
| Barrier.CountInv | sglang/benchmark/hicache/bench_multiturn.py:482 | counting the completed request, which opens the window, keeps it |
| Barrier.NeverCrashes | sglang/benchmark/hicache/bench_multiturn.py:486 | the sub-question list is never empty when a client needs one |
| Barrier.RequeueInv | sglang/benchmark/hicache/bench_multiturn.py:484-516 | queueing or parking the next request keeps it |
| Barrier.TallyInv | sglang/benchmark/hicache/bench_multiturn.py:518-526 | the barrier count keeps it, and starts a release only when no request of the round is left |
| Barrier.ReleaseInv | sglang/benchmark/hicache/bench_multiturn.py:532-533 | every single turn of the release loop keeps it |
| Barrier.FinishInv | sglang/benchmark/hicache/bench_multiturn.py:534-536 | so does its end |
| Barrier.HandlesInv | sglang/benchmark/hicache/bench_multiturn.py:435-536 | every step of the handler keeps it |
| Barrier.RunInv | sglang/benchmark/hicache/bench_multiturn.py:402-536 | every state of every interleaving satisfies it |
| Barrier.RunSafe | sglang/benchmark/hicache/bench_multiturn.py:402-536 | between any two steps, failures included: no pop from an empty sub-question list; requests in flight, answered or in the handler's hand uncounted are sent - completed and at most max_parallel; no released request of a round before every other client has finished the rounds before it |
| Barrier.RunBounded | sglang/benchmark/hicache/bench_multiturn.py:402-536 | however the threads interleave, a run holds at most 25 working steps per round of a client |
| Barrier.NeverStalled | sglang/benchmark/hicache/bench_multiturn.py:402-536 | while a client has rounds left, is not lost and is not parked behind a lost one, a working step is at most two steps away; without the barrier this is every client not lost |
| Barrier.TotalByRounds | sglang/benchmark/hicache/bench_multiturn.py:264-267 | the sum of the clients' rounds equals the sum of clients_per_round |
| Barrier.RunCompletes | sglang/benchmark/hicache/bench_multiturn.py:264-267 | with nothing outstanding every client has done exactly its rounds or lost a request, and sent and completed both equal rounds done plus losses; without losses they equal both totals |
| Barrier.WorksOrDone | sglang/benchmark/hicache/bench_multiturn.py:402-536 | a run can work on, or every client is done, lost or parked behind a lost one; without losses all rounds are then done and counted, and without the barrier every client that lost no request has done its rounds; with the bound, a run that takes its working steps gets there |
| BarrierOrder.LaunchOrder | sglang/benchmark/hicache/bench_multiturn.py:402-536 | with a first-in-first-out ready queue, requests are launched in the order queued: first requests, then next ones in the order built, or with the barrier in the order released, which is the order built |
| BarrierOrder.AnswerOrder | sglang/benchmark/hicache/bench_multiturn.py:388-441 | responses are handled in the order in which the requests were answered |
| BarrierLoss.LostBlocks | sglang/benchmark/hicache/bench_multiturn.py:444-536 | with the barrier, a client whose request failed in round r holds the barrier at r for ever: no later round is released and what is parked stays parked |
| BarrierLoss.HeldBackForEver | sglang/benchmark/hicache/bench_multiturn.py:518-536 | so a client parked while another is lost stays in its round and never has its next request sent |
| Barrier.WorkloadGenerator.constructor | sglang/benchmark/hicache/bench_multiturn.py:234-267 | the object starts in the initial state with clients_per_round filled |
| Barrier.WorkloadGenerator.TestWindow | sglang/benchmark/hicache/bench_multiturn.py:405 | the sender's window test is the machine's check step |
| Barrier.WorkloadGenerator.PopReady | sglang/benchmark/hicache/bench_multiturn.py:406 | the pop is the machine's pop or skip step |
| Barrier.WorkloadGenerator.LaunchRequest | sglang/benchmark/hicache/bench_multiturn.py:407-409 | the launch is the machine's launch step |
| Barrier.WorkloadGenerator.Answer | sglang/benchmark/hicache/bench_multiturn.py:388-400 | an answer is the machine's respond step |
| Barrier.WorkloadGenerator.GetResponse | sglang/benchmark/hicache/bench_multiturn.py:441-444 | taking a response is the take step, or the fail step |
| Barrier.WorkloadGenerator.SkipFailed | sglang/benchmark/hicache/bench_multiturn.py:444-447 | a failed request is only counted |
| Barrier.WorkloadGenerator.RecordRound | sglang/benchmark/hicache/bench_multiturn.py:458-459 | the client's round is the record step, on a client that exists |
| Barrier.WorkloadGenerator.CountCompleted | sglang/benchmark/hicache/bench_multiturn.py:482 | the completion count is a step of its own |
| Barrier.WorkloadGenerator.QueueNext | sglang/benchmark/hicache/bench_multiturn.py:484-516 | queueing or parking is the requeue step, and its pop is safe |
| Barrier.WorkloadGenerator.TallyRound | sglang/benchmark/hicache/bench_multiturn.py:518-526 | the barrier count is the tally step |
| Barrier.WorkloadGenerator.ReleaseRound | sglang/benchmark/hicache/bench_multiturn.py:532-536 | one turn of the release loop, or its end, is one step |
| Spans.CheckOverlap | sglang/scripts/convert_otel_2_perfetto.py:58-70 | the bisection loop evaluates the two-neighbour test |
| Spans.NeighbourTestIsExact | sglang/scripts/convert_otel_2_perfetto.py:58-70 | on a disjoint line the two-neighbour test is true if and only if some interval overlaps |
| Spans.FitsApart | sglang/scripts/convert_otel_2_perfetto.py:58-73 | an interval of any length that passes the test on a line of intervals apart from each other overlaps none of them and leaves them apart |
| Spans.EmptyConflict | sglang/scripts/convert_otel_2_perfetto.py:58-70 | a zero-length interval that fails the test overlaps an interval of the line |
| Spans.InsertSpan | sglang/scripts/convert_otel_2_perfetto.py:72-73 | insertion keeps the line sorted and adds exactly that interval |
| Spans.SpanLayout.OpenLine | sglang/scripts/convert_otel_2_perfetto.py:104-123 | the new line takes the next number, lines stay numbered 1..n, and its metadata entry is appended |
| Spans.SpanLayout.FindLine | sglang/scripts/convert_otel_2_perfetto.py:95-123 | the request keeps its line if the span is empty or fits there; otherwise it gets the first line without a conflict, and a line is opened only if every existing one conflicts |
| Spans.SpanLayout.PlaceSpan | sglang/scripts/convert_otel_2_perfetto.py:278-290 | any span is inserted in order on the line the search chose, the current one or the first without a conflict, and nothing else changes |
| SpanRuns.CleanIff | sglang/scripts/convert_otel_2_perfetto.py:95-123 | for placements of which only zero-length ones skipped the test: no two spans of a process on one line overlap if and only if each zero-length span would have passed it at its moment |
| SpanRuns.LayoutClean | sglang/scripts/convert_otel_2_perfetto.py:264-304 | that is the exact condition for every input of the layout, and it holds for every input in which no zero-length span follows another span of its process in its group |
| SpanRuns.EmptySpanHides | sglang/scripts/convert_otel_2_perfetto.py:95-123 | for all a < e < s < b and s < t, the spans (a, b), (e, e), (s, t) of one request all go to line 1, where the first and the third overlap |
| SpanRuns.Layout | sglang/scripts/convert_otel_2_perfetto.py:264-304 | over any groups of spans the loops place every span once, in order, on the line the specification names; the graph holds exactly those placements on lines 1..n; no overlap exactly under the condition above |

## Left out

- Floating point: rounding, dtypes, casts, overflow and devices; all arithmetic is over exact reals.
- Random sampling, temperature and `_top_k_logits`: sampling is one arbitrary function of a position's logits.
- Generate.Generate: one method with a flag stands for `generate` and `_generate_with_kv_cache`, which differ only in the forward pass and the commits; printing is left out, and block_length must be positive.
- DecodeProperties.CachedEqualsUncached: block_length is a multiple of the attention block size of each recurrent layer; Misaligned.AlignmentIff says what happens otherwise, for stacks of one attention block size without pure linear layers.
- EarlyStop.EarlyStopExact: for decoders that clear their blocks; without that, only KeepsUp is claimed for batches of several rows.
- AttentionMask.InferKeyValid: float masks hold finite numbers and minus infinity; plus infinity and NaN are not modelled.
- AttentionForward.HybridForward: masks are boolean where the code multiplies by any float.
- AttentionForward.HybridBd3lm: a key mask reaches no further than both halves.
- Bounds.FirstOutputsAreSoftmax: needs eps <= 1 (the code's value is 1e-6), so that clamping leaves a partition function of at least 1 alone, and a valid key in the block.
- Kernel.Extend: `ref_hybrid_extend` and `ref_hybrid_extend_per_q` are one method whose parameters say which head indexes weights and state; the default scale is a parameter.
- KernelRuns.ExtendBoth: the state read is apart from the state written; ExtendAliased says what happens otherwise.
- Moe.MoeInfer: expert ids of a token are distinct, as top-k gives them, and there is at least one token; shared experts are left out.
- PrefixCache.BlockDiffusionCache: tensors in the cache are values, so the snapshot's clone and sharing between tensors are not captured.
- The DynamicCache path, `output_attentions`, dropout and `softmax_anchor_ratio` (taken as 0).
- RMSNorm, rotary embedding, MLP, router logits and the sigmoid of the gates are abstract functions or parameters.
- `kernel/production.py` and the Triton kernels behind it.
- Barrier.RunSafe: timing, HTTP, payloads and metrics are left out, and enough sub-questions are present at the start; accesses to data only one thread uses are merged into its neighbouring step.
- Barrier.WorksOrDone: says that working steps stay available and are bounded, not that a scheduler takes them.
- SpanRuns.Layout: sorting of the spans, the span tree and event conversion are left out, and a line is a value in the graph's map.
- Training losses, configuration, weight loading, engine and adapter scripts and the rest of the vendored serving tree.
