# Verified models of verl's weight transfer, activation offloading and checkpoint bookkeeping

verl moves the weights of a trained model to its rollout workers, parks saved activations on the host during training,
converts checkpoints between layouts, and restarts interrupted runs. This project models the parts of that code which are
real state machines or exact layout arithmetic, and proves what they promise. `dafny verify dfyconfig.toml` checks it all.

**Weight transfer.** All four checkpoint engines are proved to deliver the sender's named tensors: the three that pack one
sender's list against one specification of its buckets, the striped one up to the order of tensors.
`BucketPacking.dfy` has the packing loop on reused dirty buffers, its unpacking, and the list that a sequence of buckets
delivers; a receiver's dtype view of an unaligned slice raises. `Transfer.dfy` holds a sender's loop suspended between two steps. Each engine is then a small-step transition
system in which all ranks, queues and asynchronous byte-by-byte copies interleave freely, buffers start with arbitrary
contents, and names may repeat:

- `NixlRelay`, `NixlProgress`: the relay chain with READs and completion notifications; `NixlAgent`: its wiring and message queues.
- `MooncakeRelay`, `MooncakeRuns`, `MooncakeControl`, `MooncakeProgress`, `MooncakeHazard`, `MooncakeYields`: the chain
  acknowledged by four magic bytes written into the previous rank's buffer. Progress holds for all weights. Neither safety, nor delivery on ranks with a successor, nor the sender's final
  wait is unconditional: for each the exact condition on the weights is proved in both directions, with schedules that hold one
  rank back while all others run.
- `NcclBroadcast`, `NcclProgress`: the double-buffered broadcast with background tasks.
- `KimiStriping`, `KimiBroadcast`, `KimiDelivery`: striping over trainer ranks, the parity double buffer on the receivers, and the
  two together: every rank yields each of the sender's tensors exactly once.

**Activation offloading.** `ActivationOffload` is the double-buffer handler as a class, each method proved against a function on
its fields, with the window arithmetic. `OffloadRuns` proves whole training runs: values, failures, streams, residency.

**Checkpoints and batches.** `KlSteps`, `KlSamples`, `KlTrainer` (gradient accumulation, the order of samples, checkpoint
retention, crash and resume), `PipelineShards`, `QkvLayout` and `LayerNumbering` (layout arithmetic of the mergers and
converter), `DataProtos` (batch dispatch), `PromptLogprobs` (chunked prefill), `GenerationServer` (concurrent generation).
`Arithmetic`, `Totals`, `TorchChunks`, `NumpySplit` and `Options` are shared helpers.

Facts about the code that the proofs brought out, each with a lemma:

- NIXL and NCCL deliver the sender's list exactly when no bucket holds two tensors of one name and every tensor starts in its
  bucket at a multiple of its item size (`NixlProgress.CompleteRunsDeliver`, `NcclProgress.CompleteRunsDeliver`); a one-byte
  tensor before a two-byte one is enough to make the receivers raise (`Weights.OddByteFirst`). One item size for all tensors,
  which the casts of the other two engines establish, suffices (`BucketPacking.CommonItemsizeDelivers`).
- Mooncake reuses a half-buffer too early in some schedule exactly when some bucket before the last two agrees with AB DC EF 88 on
  its first four bytes, or on all its bytes if it has fewer (`MooncakeHazard.SafeIffMagicSafe`). In chains of three or more ranks
  some schedule makes a rank with a successor yield the acknowledgement bytes in place of a tensor's own, unless every bucket
  agrees with them (`MooncakeYields.EveryRankYieldsIff`). The sender's return means delivery exactly when the last bucket does not
  agree with them (`MooncakeYields.SenderWaitsIff`). A rank may return while its successor still has to read from it
  (`MooncakeYields.ReturnedRankMayStillBeRead`), which NIXL excludes.
- The NIXL topology is accepted exactly for two or more rollout workers (`NixlAgent.TopologyNeedsTwoRollouts`).
- A reload returns the wrong tensor exactly when two tensors of a group share a key and differ, such as a square matrix and its
  transpose (`OffloadRuns.RecoveredIffHonest`, `OffloadRuns.TransposeCollides`). With one group per layer only the first group
  is offloaded (`OffloadRuns.OneGroupPerLayerOffloadsOnlyTheFirst`).
- A finished KL training process leaves its final checkpoint on disk exactly when it keeps more than one, or its last step is not
  also a periodic save, or it did nothing but continue from that very checkpoint: with one to keep, which is the default, saving
  the same step twice removes it (`KlTrainer.KlTrainer.Train`, `KlTrainer.FinalCheckpointLost`).
- A KL training job that was killed and resumed ends with the model of an uninterrupted run, whatever orders are drawn, exactly when
  there are several data-parallel ranks or no process of its chain resumed inside an epoch; with one rank, a resume inside an epoch
  draws a new order, so some samples are trained on twice and others never (`KlTrainer.RestartUntilFinished`,
  `KlSamples.SameSamplesIff`, `KlSamples.RedrawnEpoch`). With one rank, no schedule of kills does harm exactly when periodic saves
  never fall inside an epoch (`KlTrainer.RestartUntilFinished`, `KlTrainer.KilledInsideEpoch`).
- A trainer rank of the Kimi engine registers exactly its share of the tensors if and only if no name repeats within the share
  (`KimiDelivery.RegistersShareIff`).
- The pipeline split raises although a split exists, exactly when L >= P >= 3 and ceil(L/P)(P-2)+2 > L, for example for five layers
  on four ranks (`PipelineShards.MissesSplitIff`, `PipelineShards.FiveLayersFourRanks`).
- The merger never gives two layers one number, and its numbers are consecutive exactly when no chunk without layers precedes one
  with layers; over several ranks they are a bijection onto 0..L-1 exactly when that holds on every rank
  (`LayerNumbering.ConsecutiveIff`, `LayerNumbering.BijectiveIff`).

## Model

| member | source | states |
|---|---|---|
| `Weights.DecodeIffDistinct` | verl/checkpoint_engine/nixl_checkpoint_engine.py:414-421 | the slots that a bucket's metadata dict describes hold the packed tensors, in order, if and only if no name repeats; a repeat loses tensors (whether a slot can be viewed in its type is `Weights.ReceiveIff`) |
| `Weights.ReceiveIff` | verl/checkpoint_engine/nixl_checkpoint_engine.py:475-479 | viewing the slots of a bucket in their types succeeds with exactly the packed tensors if and only if no name repeats and every tensor starts at a multiple of its item size |
| `Weights.WholeIsMultiple` | verl/checkpoint_engine/nixl_checkpoint_engine.py:478-478 | the alignment condition is being a multiple of the item size |
| `Weights.CommonItemsizeAligns` | verl/checkpoint_engine/mooncake_checkpoint_engine.py:168-168 | tensors of one item size, packed from a multiple of it, can all be viewed |
| `Weights.OddByteFirst` | verl/checkpoint_engine/nccl_checkpoint_engine.py:338-338 | a one-byte tensor before a two-byte one: distinct names, but the second view raises and nothing is received |
| `Weights.NumelLaws` | verl/checkpoint_engine/nixl_checkpoint_engine.py:477-478 | the element count is one without dimensions, the dimension for a vector, and multiplies over any two parts of a shape |
| `Weights.WindowIs` | verl/checkpoint_engine/nccl_checkpoint_engine.py:337-338 | an entry inside the buffer covers exactly item size times the product of the dimensions, from its offset |
| `Weights.MetasInBounds` | verl/checkpoint_engine/nixl_checkpoint_engine.py:414-421 | every packed name keeps an entry and no entry reaches past the bucket's bytes |
| `Weights.LastHasEntry` | verl/checkpoint_engine/nixl_checkpoint_engine.py:414-419 | of the tensors of one name, the last one packed has the dict's entry, at its own offset |
| `Weights.DictSetPlaces` | verl/checkpoint_engine/nixl_checkpoint_engine.py:414-419 | assigning to a key of the dict changes no other entry and no entry's place |
| `Weights.SlotBytes` | verl/checkpoint_engine/nccl_checkpoint_engine.py:276-280 | tensor i occupies exactly the bytes between the running offsets before and after it |
| `BucketPacking.GroupsAreGreedy` | verl/checkpoint_engine/nccl_checkpoint_engine.py:242-280 | the buckets concatenate to the input, none exceeds the limit, and each was closed only because the next weight did not fit |
| `BucketPacking.GreedyPartitionIsUnique` | verl/checkpoint_engine/nccl_checkpoint_engine.py:242-280 | any partition with those three properties is the loop's |
| `BucketPacking.BucketCountBound` | verl/checkpoint_engine/nccl_checkpoint_engine.py:242-293 | B >= 2 buckets imply more than (B div 2) bucket sizes of data |
| `BucketPacking.DeliveryIffDistinct` | verl/checkpoint_engine/nccl_checkpoint_engine.py:335-355 | the slots of all buckets hold the sender's list if and only if no bucket repeats a name |
| `BucketPacking.DeliveryOfDistinct` | verl/checkpoint_engine/nccl_checkpoint_engine.py:335-355 | for the slots' contents, globally distinct names suffice |
| `BucketPacking.DeliverableIff` | verl/checkpoint_engine/nccl_checkpoint_engine.py:335-355 | no bucket repeats a name and each tensor is aligned, if and only if every view succeeds and together they are the sender's list; also for buckets packed alternately into two halves |
| `BucketPacking.OddHalfRaises` | verl/checkpoint_engine/mooncake_checkpoint_engine.py:163-165 | in halves of an odd number of bytes a two-byte tensor at the start of the second bucket cannot be viewed, though it can in the first |
| `BucketPacking.CommonItemsizeDelivers` | verl/checkpoint_engine/mooncake_checkpoint_engine.py:159-168 | for weights cast to one type, in halves of a whole number of items, every view succeeds, and distinct names make the list deliverable |
| `BucketPacking.BucketSender.SendWeights` | verl/checkpoint_engine/nixl_checkpoint_engine.py:379-431 | the array loop, swapping two dirty buffers: succeeds if and only if every weight fits; the announced packets then carry the buckets with only the last flagged; on an oversize weight, the buckets before it |
| `BucketPacking.AppendTensor` | verl/checkpoint_engine/nixl_checkpoint_engine.py:414-421 | one loop iteration extends metadata, offset and the filled prefix of the buffer by exactly that weight |
| `BucketPacking.YieldTensors` | verl/checkpoint_engine/nixl_checkpoint_engine.py:475-479 | the receiving loop yields one view per metadata entry, in order, up to the first entry whose slice is not aligned, where it raises; each view inside the buffer is item size times the product of its dimensions long |
| `BucketPacking.PackUnpackRoundTrip` | verl/checkpoint_engine/nccl_checkpoint_engine.py:335-355 | receiving the packets that carry a list's buckets gives that list if and only if no bucket repeats a name and every tensor is aligned |
| `NixlRelay.EveryRankDelivers` | verl/checkpoint_engine/nixl_checkpoint_engine.py:365-513 | in every run, for any number of ranks, each receiving rank has yielded a prefix of the buckets' contents; it returns only with all of it, which is the sender's list if and only if the buckets are deliverable, and its loop raises only over an unaligned tensor |
| `NixlRelay.NoWriteToSharedBuffer` | verl/checkpoint_engine/nixl_checkpoint_engine.py:379-513 | no step writes a buffer that the next rank may still read or that the consumer is being handed views of; buffers not written stay as they are |
| `NixlRelay.OperationsMatch` | verl/checkpoint_engine/nixl_checkpoint_engine.py:150-168 | each link has at most one outstanding operation; a notification found carries the waiting rank's own key and comes from its successor; announcements name the announcing rank although its metadata was received and forwarded |
| `NixlRelay.ReturnedRankIsQuiet` | verl/checkpoint_engine/nixl_checkpoint_engine.py:511-513 | once a rank has returned nobody can read its buffers and nothing addressed to or by it is under way |
| `NixlProgress.NoDeadlock` | verl/checkpoint_engine/nixl_checkpoint_engine.py:379-513 | in every reachable state some rank or READ can move, unless all ranks have returned or some view has raised, which aligned tensors exclude |
| `NixlProgress.RunsAreBounded` | verl/checkpoint_engine/nixl_checkpoint_engine.py:379-513 | every step of every rank lowers a natural-number measure, so every schedule ends |
| `NixlProgress.CompleteRunsDeliver` | verl/checkpoint_engine/nixl_checkpoint_engine.py:379-513 | a run that cannot be extended has delivered the sender's list to every rank if and only if no bucket repeats a name and every tensor is aligned |
| `NixlAgent.TopologyNeedsTwoRollouts` | verl/checkpoint_engine/nixl_checkpoint_engine.py:283-299 | the argument lists have one entry per worker if and only if there are at least two rollout workers, and then link every worker to its chain neighbours |
| `NixlAgent.NixlAgent.ReadMessage` | verl/checkpoint_engine/nixl_checkpoint_engine.py:122-126 | hands out the oldest message of the asked sender; nobody's messages are lost, reordered or stolen |
| `NixlAgent.NixlAgent.GetNotification` | verl/checkpoint_engine/nixl_checkpoint_engine.py:128-134 | the loop with its rebound parameter: which agent's notification is returned, how many polls are consumed, and the queues left; no agent's notifications are lost or reordered, and the one returned is the oldest of the agent served |
| `NixlAgent.ServedIsLastNotifier` | verl/checkpoint_engine/nixl_checkpoint_engine.py:131-132 | the agent served is the last entry of the last non-empty batch polled, else the one asked for |
| `NixlAgent.FirstBatchDecides` | verl/checkpoint_engine/nixl_checkpoint_engine.py:129-134 | with nothing queued, the last entry of the first batch that has any decides who is served, so the agent asked for exactly when that entry is its own |
| `NixlAgent.SoleNotifierIsServed` | verl/checkpoint_engine/nixl_checkpoint_engine.py:131-134 | if only the awaited agent notifies, the rebinding is harmless |
| `NixlAgent.RebindingServesSomeoneElse` | verl/checkpoint_engine/nixl_checkpoint_engine.py:131-134 | with a second notifier the call returns the wrong agent's notification |
| `MooncakeRelay.StepInv` | verl/checkpoint_engine/mooncake_checkpoint_engine.py:150-274 | every step of every rank keeps the relay's invariant, unless it ends a wait for a bucket whose own bytes look acknowledged |
| `MooncakeRelay.LookalikeBytes` | verl/checkpoint_engine/mooncake_checkpoint_engine.py:142-147 | a bucket of four bytes or more looks acknowledged exactly if it starts with AB DC EF 88 |
| `MooncakeRuns.MagicSafeIsSafe` | verl/checkpoint_engine/mooncake_checkpoint_engine.py:142-147 | for magic-safe weights no step of any run, acknowledgement writes included, overwrites a half that the next rank may still copy |
| `MooncakeRuns.UnwrittenHalfStays` | verl/checkpoint_engine/mooncake_checkpoint_engine.py:201-201 | a half not written by packing, copying or acknowledging keeps its bytes |
| `MooncakeRuns.ReadsAreExact` | verl/checkpoint_engine/mooncake_checkpoint_engine.py:237-244 | for magic-safe weights, the k-th completed read of any rank holds exactly bucket k with bucket k's metadata |
| `MooncakeRuns.LastRankDelivers` | verl/checkpoint_engine/mooncake_checkpoint_engine.py:222-274 | for magic-safe weights, the last rank yields a prefix of the buckets' contents and all of it when it returns: the sender's list if and only if no bucket repeats a name |
| `MooncakeRuns.MagicSparesTheRest` | verl/checkpoint_engine/mooncake_checkpoint_engine.py:252-266 | for magic-safe weights, every rank yields the right number of tensors, and those that start past a bucket's first four bytes are exact; for all tensors the exact condition is `MooncakeYields.EveryRankYieldsIff` |
| `MooncakeControl.StepControl` | verl/checkpoint_engine/mooncake_checkpoint_engine.py:142-274 | for all weights, every step of every rank, early ends of waits included, keeps the counters, the queues, and that an acknowledged half which may be waited for starts with the magic bytes |
| `MooncakeProgress.NoDeadlock` | verl/checkpoint_engine/mooncake_checkpoint_engine.py:150-274 | for all weights, in every reachable state some rank can move, unless all have returned |
| `MooncakeProgress.CopiesWithinBucket` | verl/checkpoint_engine/mooncake_checkpoint_engine.py:237-244 | a read copies only as many bytes as the bucket has |
| `MooncakeProgress.RunsAreBounded` | verl/checkpoint_engine/mooncake_checkpoint_engine.py:150-274 | for all weights, every step lowers a natural-number measure, so every schedule ends |
| `MooncakeProgress.CompleteRunsDeliver` | verl/checkpoint_engine/mooncake_checkpoint_engine.py:150-274 | for all weights, a run that cannot be extended has all ranks returned; for magic-safe ones everything is delivered to the last rank |
| `MooncakeHazard.LookalikeIsUnsafe` | verl/checkpoint_engine/mooncake_checkpoint_engine.py:187-189 | if some bucket before the last two looks acknowledged, some schedule overwrites a bucket before it is copied |
| `MooncakeHazard.SafeIffMagicSafe` | verl/checkpoint_engine/mooncake_checkpoint_engine.py:142-212 | no schedule overwrites early if and only if no bucket before the last two can be mistaken for an acknowledgement |
| `MooncakeYields.MiddleRankMayYieldMagic` | verl/checkpoint_engine/mooncake_checkpoint_engine.py:247-266 | in a chain of three or more, for every bucket that does not look acknowledged, some schedule makes rank 1 yield one of its tensors wrong |
| `MooncakeYields.EveryRankYieldsIff` | verl/checkpoint_engine/mooncake_checkpoint_engine.py:222-266 | every receiving rank yields a prefix of the sender's tensors in every schedule, and all when it returns, if and only if there is one receiving rank or every bucket looks acknowledged (for distinct names, under the safety condition) |
| `MooncakeYields.SenderMayReturnEarly` | verl/checkpoint_engine/mooncake_checkpoint_engine.py:211-212 | if the last bucket looks acknowledged, some schedule lets the sender return before rank 1 has finished it |
| `MooncakeYields.SenderWaitsIff` | verl/checkpoint_engine/mooncake_checkpoint_engine.py:211-212 | the sender returns only after rank 1 has finished every bucket, in every schedule, if and only if the last bucket does not look acknowledged |
| `MooncakeYields.ReturnedRankMayStillBeRead` | verl/checkpoint_engine/mooncake_checkpoint_engine.py:268-274 | in a chain of three or more, some schedule lets rank 1 return while rank 2 may still read the last bucket from it |
| `NcclBroadcast.EveryRankDelivers` | verl/checkpoint_engine/nccl_checkpoint_engine.py:297-355 | in every interleaving of background broadcasts, packing and yielding, every rank > 0 yields a prefix of the buckets' contents; it returns only with all of it, which is the sender's list if and only if the buckets are deliverable, and raises only over an unaligned tensor |
| `NcclBroadcast.MetadataMatchesBucket` | verl/checkpoint_engine/nccl_checkpoint_engine.py:74-93 | a completed operation k holds the metadata of bucket k, its last flag, and bucket k's bytes |
| `NcclBroadcast.BuffersAreSeparate` | verl/checkpoint_engine/nccl_checkpoint_engine.py:238-347 | the buffer under broadcast is never the one being packed or yielded from |
| `NcclBroadcast.OtherBuffersStay` | verl/checkpoint_engine/nccl_checkpoint_engine.py:276-280 | only packing writes the sender's buffer and only arriving bytes write a receiver's |
| `NcclProgress.NoDeadlock` | verl/checkpoint_engine/nccl_checkpoint_engine.py:238-355 | some rank or background operation can always move until all ranks have returned or some view has raised, which aligned tensors exclude |
| `NcclProgress.RunsAreBounded` | verl/checkpoint_engine/nccl_checkpoint_engine.py:238-355 | every schedule ends |
| `NcclProgress.CompleteRunsDeliver` | verl/checkpoint_engine/nccl_checkpoint_engine.py:238-355 | a run that cannot be extended has delivered the sender's list to every receiving rank if and only if no bucket repeats a name and every tensor is aligned |
| `KimiStriping.StripeAt` | verl/checkpoint_engine/kimi_checkpoint_engine.py:48-50 | tensor i is kept by rank i mod world, at position i div world |
| `KimiStriping.NamedTensorBuckets` | verl/checkpoint_engine/kimi_checkpoint_engine.py:37-63 | refuses a non-positive limit and nothing else; otherwise the buckets are the dicts of consecutive non-empty groups of the rank's stripe, each within the limit or a single tensor, closed only when the next one does not fit |
| `KimiStriping.DictHoldsLast` | verl/checkpoint_engine/kimi_checkpoint_engine.py:59-59 | of the tensors of one name in a bucket, the dict holds the last one |
| `KimiStriping.PutPlaces` | verl/checkpoint_engine/kimi_checkpoint_engine.py:59-59 | assigning to a name changes no other entry and no entry's place |
| `KimiStriping.BucketsHoldTheStripe` | verl/checkpoint_engine/kimi_checkpoint_engine.py:57-63 | with distinct names the buckets concatenate to the stripe |
| `KimiStriping.VisitOrder` | verl/checkpoint_engine/kimi_checkpoint_engine.py:104-126 | the receivers' loops visit every bucket of every rank exactly once, round by round and by rank within a round |
| `KimiBroadcast.EveryRankDelivers` | verl/checkpoint_engine/kimi_checkpoint_engine.py:111-166 | in every interleaving each rank yields the buckets' tensors in list order, and all of them when it returns; it raises only over an unaligned tensor |
| `KimiBroadcast.NeverIntoYieldedHalf` | verl/checkpoint_engine/kimi_checkpoint_engine.py:127-155 | the half being loaded or broadcast into is never the half yielded from; the other half keeps its bytes |
| `KimiBroadcast.NoDeadlock` | verl/checkpoint_engine/kimi_checkpoint_engine.py:114-155 | some rank or background copy can always move until all ranks have returned or some view has raised, which aligned tensors exclude |
| `KimiBroadcast.RunsAreBounded` | verl/checkpoint_engine/kimi_checkpoint_engine.py:114-155 | every schedule ends |
| `KimiBroadcast.CompleteRunsDeliver` | verl/checkpoint_engine/kimi_checkpoint_engine.py:114-166 | a run that cannot be extended has delivered every bucket to every rank if and only if every tensor is aligned |
| `KimiDelivery.StripesPartition` | verl/checkpoint_engine/kimi_checkpoint_engine.py:48-50 | the stripes of all trainer ranks together are the list, as multisets |
| `KimiDelivery.RegistersShareIff` | verl/checkpoint_engine/kimi_checkpoint_engine.py:57-63 | what a trainer rank registers after all its buckets is its stripe, as multisets, if and only if no name repeats in the stripe |
| `KimiDelivery.VisitedIsHeld` | verl/checkpoint_engine/kimi_checkpoint_engine.py:104-126 | visiting the buckets of all ranks in any order that meets each once gives the tensors of all buckets |
| `KimiDelivery.PackedContent` | verl/checkpoint_engine/kimi_checkpoint_engine.py:119-140 | the views of a bucket packed back to back are its tensors, for distinct names |
| `KimiDelivery.CastBucketsViewable` | verl/checkpoint_engine/kimi_checkpoint_engine.py:48-48 | tensors cast to one type and packed in halves of a whole number of items can always be viewed |
| `KimiDelivery.EveryRankYieldsTheWeights` | verl/checkpoint_engine/kimi_checkpoint_engine.py:37-166 | for distinct names, however the registered tensors are cut into buckets, every rank yields only the sender's tensors, none more often than sent, and each exactly once when it returns, in every interleaving |
| `ActivationOffload.BuildWindowMap` | verl/utils/activation_offload.py:250-257 | the constructor's loop computes (L div G)(i+1) - 1 + min(i+1, L mod G) for every group and nothing else |
| `ActivationOffload.WindowGaps` | verl/utils/activation_offload.py:250-257 | consecutive groups' window layers are L div G apart, and one more for the first L mod G groups |
| `ActivationOffload.WindowIncreasing` | verl/utils/activation_offload.py:250-257 | the window map is strictly increasing |
| `ActivationOffload.WindowAhead` | verl/utils/activation_offload.py:250-257 | it ends at the last layer, and a group's window layer comes after its own layer exactly when there are fewer groups than layers |
| `ActivationOffload.WindowOfAllButOne` | verl/utils/activation_offload.py:543-543 | with one group fewer than layers, group i is released at layer i+1 |
| `ActivationOffload.AsyncDoubleBufferGroupOffloadHandler.constructor` | verl/utils/activation_offload.py:228-261 | establishes the window map and the empty state |
| `ActivationOffload.AsyncDoubleBufferGroupOffloadHandler.TensorPush` | verl/utils/activation_offload.py:263-283 | the method has the effect and result of the specified push, and fails when that does; the tag handed out was unused, what is saved under it is the tensor, and no other tag's entry changes; exactly the tensors that the filter accepts are tagged |
| `ActivationOffload.AsyncDoubleBufferGroupOffloadHandler.TensorPop` | verl/utils/activation_offload.py:285-296 | likewise for pop: it returns what is saved under the tag, forgets that tag and no other, and fails for an unknown or offloaded one |
| `ActivationOffload.PushPop` | verl/utils/activation_offload.py:263-296 | a tensor popped right after its push is the same tensor, and the handler holds what it held before |
| `ActivationOffload.AsyncDoubleBufferGroupOffloadHandler.BulkOffloadGroup` | verl/utils/activation_offload.py:298-317 | the loop over the state dict replaces exactly the group's tensors by key and shape, keeps the first tensor of each key, and fails on a tuple; each is replaced by the sum of its storage's address and its offset, its type and its shape, and exactly the group's tags are under copy |
| `ActivationOffload.AsyncDoubleBufferGroupOffloadHandler.OnGroupCommitForward` | verl/utils/activation_offload.py:319-352 | the forward commit, including a missing window key, is the specified one |
| `ActivationOffload.AsyncDoubleBufferGroupOffloadHandler.BulkReloadGroup` | verl/utils/activation_offload.py:355-371 | restores exactly the group's replaced tensors, and fails when a key is missing or a view does not fit; exactly the restored tags are on their way back |
| `ActivationOffload.AsyncDoubleBufferGroupOffloadHandler.OnGroupCommitBackward` | verl/utils/activation_offload.py:373-395 | the backward commit is the specified one |
| `OffloadRuns.RecoveredIffHonest` | verl/utils/activation_offload.py:298-371 | offloading and reloading a group gives every tensor's shape, type and contents back if and only if tensors of one type whose storage address plus offset agree have one content |
| `OffloadRuns.DistinctAreRecovered` | verl/utils/activation_offload.py:298-371 | tensors of a group that pairwise differ in address plus offset or in type, or have equal contents, are all given back |
| `OffloadRuns.FirstIsKept` | verl/utils/activation_offload.py:307-309 | of the tensors under one key the host keeps the one saved first |
| `OffloadRuns.TransposeCollides` | verl/utils/activation_offload.py:35-37 | a square matrix and its transpose in one group are not both given back |
| `OffloadRuns.NothingFails` | verl/utils/activation_offload.py:263-395 | over any number of iterations, layers and tensors no assertion fails and no dict key is missing |
| `OffloadRuns.PopReturnsPushed` | verl/utils/activation_offload.py:285-296 | every pop returns the value pushed under the tag, and the copy back to the device has been waited for |
| `OffloadRuns.CopiesStayHeld` | verl/utils/activation_offload.py:330-338 | a device tensor stays referenced until its copy to the host has been waited for |
| `OffloadRuns.BackToFresh` | verl/utils/activation_offload.py:373-395 | after a whole backward pass the handler is in its initial state |
| `OffloadRuns.AtMostTwoGroups` | verl/utils/activation_offload.py:502-504 | with L-1 groups, at every point only the current group and the one before it are on the device, besides groups that the backward pass has reached and not yet popped |
| `OffloadRuns.OffloadedGroupsAreComplete` | verl/utils/activation_offload.py:319-345 | with fewer groups than layers nothing is pushed into a group after it was offloaded |
| `OffloadRuns.OneGroupPerLayerOffloadsOnlyTheFirst` | verl/utils/activation_offload.py:230-230 | with as many groups as layers, tensors of every group but the first stay on the device |
| `KlSteps.UninterruptedAppliesEachOnce` | recipe/opd/kl_trainer.py:737-829 | the steps of an uninterrupted run apply every batch of every epoch exactly once, in order |
| `KlSteps.AllBatchesAt` | recipe/opd/kl_trainer.py:868-871 | batch b of epoch e is number e*n + b of that order, taken from the order drawn for epoch e |
| `KlSteps.StepSizes` | recipe/opd/kl_trainer.py:785-788 | every optimizer step accumulates a full window, except an epoch's last |
| `KlSteps.SamePlaces` | recipe/opd/kl_trainer.py:757-829 | whatever a chain of resumed processes, each of its steps takes the same places of the same epoch as the uninterrupted run's |
| `KlSamples.SameSamplesIff` | recipe/opd/dataset/data_utils.py:519-537 | a chain of processes has been trained on the uninterrupted run's samples, step by step and for all orders drawn, if and only if there are several data-parallel ranks or none of them resumed inside an epoch |
| `KlSamples.EpochReadsTheOrder` | recipe/opd/dataset/data_utils.py:532-540 | an epoch's batches are the drawn order, cut up: every sample once |
| `KlSamples.UnlikeAnyRun` | recipe/opd/dataset/data_utils.py:519-537 | with one data-parallel rank, a chain with a resume inside an epoch is, for some orders, unlike every uninterrupted run |
| `KlSamples.SavesInsideIff` | recipe/opd/kl_trainer.py:828-829 | some checkpoint is written inside an epoch if and only if the save interval is less than the number of steps and not a whole number of epochs |
| `KlSamples.RedrawnEpoch` | recipe/opd/kl_trainer.py:758-760 | two samples, a kill after the first step and two different orders: the first sample is trained on twice and the second never |
| `KlTrainer.ListedSaved` | verl/utils/checkpoint/checkpoint_manager.py:144-172 | after each periodic save the paths registered are the newest min(keep, periodic saves of this process) ones, or all without a limit, and they are on disk |
| `KlTrainer.LastSaveKept` | verl/utils/checkpoint/checkpoint_manager.py:159-172 | saving a step evicts that step's own checkpoint if and only if one is kept and its path was registered before |
| `KlTrainer.KlTrainer.SaveCheckpoint` | recipe/opd/kl_trainer.py:574-581 | room is made before and the excess removed after writing: the registered paths become the last min(keep, old count + 1) of the old ones and this step, and exactly the others are gone from disk, also when killed in between; every checkpoint left is the end of a chain, without pending gradients |
| `KlTrainer.KlTrainer.EnsureCheckpointCapacity` | verl/utils/checkpoint/checkpoint_manager.py:144-157 | removes the oldest paths that the next save would exceed the limit by, unless only one is kept; never the step about to be saved |
| `KlTrainer.KlTrainer.RegisterCheckpoint` | verl/utils/checkpoint/checkpoint_manager.py:159-172 | registers the step and removes the oldest paths in excess, its own among them if it was registered before |
| `KlTrainer.KlTrainer.TrainEpoch` | recipe/opd/kl_trainer.py:737-829 | from any whole-step skip, the loop ends the epoch with exactly the chain's steps, all from the order drawn when it began; it performs exactly the actions counted, and killed before a batch it leaves that batch's state |
| `KlTrainer.KlTrainer.MaybeResumeFromCheckpoint` | recipe/opd/kl_trainer.py:607-650 | loads the parameters and the generator of the highest step; mode "continue" keeps its step count, the other mode resets it; without a checkpoint the run starts from nothing |
| `KlTrainer.KlTrainer.Train` | recipe/opd/kl_trainer.py:848-887 | a finished process holds the base it started from followed by all steps of the chain it goes on with, at step ceil(n/g) times epochs; its final checkpoint is on disk if and only if more than one is kept, or the last step is no periodic save, or mode "continue" found that checkpoint; the no-step error only when there are no steps; a process allowed as many actions as a whole run, one load and one save is not cut short; it has registered min(keep, periodic saves + 1) paths, on disk unless only one is kept |
| `KlTrainer.PlanResume` | recipe/opd/kl_trainer.py:853-859 | resuming at step k starts at the epoch and batch where the uninterrupted run had applied exactly k steps |
| `KlTrainer.RestartUntilFinished` | recipe/opd/kl_trainer.py:848-887 | whatever the kills, a job that finishes has the steps of a chain of its processes; its samples are those of the uninterrupted run for all orders drawn if and only if there are several data-parallel ranks or the chain never resumed inside an epoch, and always if no periodic save falls inside one; it finishes if any process is allowed a whole run's actions |
| `KlTrainer.KilledInsideEpoch` | recipe/opd/kl_trainer.py:848-887 | with one data-parallel rank and a periodic save inside an epoch, killing the first process after its first checkpoint makes the job finish with a model that no uninterrupted run gives |
| `KlTrainer.FinalCheckpointLost` | recipe/opd/kl_trainer.py:828-887 | one batch, one step, one checkpoint to keep: the process finishes and no checkpoint is left |
| `PipelineShards.GetDynamicPipelineShards` | verl/model_merger/megatron_model_merger.py:56-97 | search and sort equal the closed form, and fail exactly where it does, error by error; on success every middle rank has ceil(L/P) layers, and the last rank as many as the first or one more |
| `PipelineShards.LeastMiddle` | verl/model_merger/megatron_model_merger.py:83-91 | no smaller middle count is a candidate, and any candidate implies success |
| `PipelineShards.SortHead` | verl/model_merger/megatron_model_merger.py:95-95 | the stable sort keeps the candidates and starts with one of least difference |
| `PipelineShards.ShardsAreASplit` | verl/model_merger/megatron_model_merger.py:56-97 | on success the counts are positive, one per rank, add up to L, and none exceeds ceil(L/P) |
| `PipelineShards.MaximumIsOptimal` | verl/model_merger/megatron_model_merger.py:61-66 | every split of L layers over P ranks has a rank with at least ceil(L/P) |
| `PipelineShards.SplitExistsIff` | verl/model_merger/megatron_model_merger.py:61-73 | a split with a layer for every rank exists if and only if L >= P |
| `PipelineShards.MissesSplitIff` | verl/model_merger/megatron_model_merger.py:80-96 | the function raises although a split exists if and only if L >= P >= 3 and ceil(L/P)(P-2)+2 > L |
| `PipelineShards.FiveLayersFourRanks` | verl/model_merger/megatron_model_merger.py:94-95 | five layers on four ranks can be split, but the search finds nothing |
| `QkvLayout.SplitTensors` | verl/model_merger/megatron_model_merger.py:329-353 | the loop over torch chunks equals the specified split, including its failures |
| `QkvLayout.InterleavedRows` | scripts/converter_hf_to_mcore.py:155-161 | row by row, the interleaved weight has each group's query rows, then its key rows, then its value rows |
| `TorchChunks.ChunkLengths` | verl/model_merger/megatron_model_merger.py:342-342 | every chunk but the last has ceil(rows / chunks) rows, the last one no more |
| `TorchChunks.ChunkFlattens` | verl/model_merger/megatron_model_merger.py:342-342 | the chunks concatenate to the tensor |
| `QkvLayout.SplitInterleaved` | scripts/converter_hf_to_mcore.py:155-161 | splitting the interleaved weight gives back q, k and v for all head counts, groups and head sizes |
| `QkvLayout.InterleaveSplit` | verl/model_merger/megatron_model_merger.py:329-353 | interleaving what the split returns gives the weight back |
| `QkvLayout.SplitAccepts` | verl/model_merger/megatron_model_merger.py:333-351 | the split succeeds if and only if the rows are a whole number of rows per head |
| `QkvLayout.MergeAcrossTp` | scripts/legacy_model_merger.py:532-560 | the nested loops over shards and chunks equal the specified merge, including its failures |
| `QkvLayout.MergeNeeds` | scripts/legacy_model_merger.py:532-545 | the merge succeeds only if the heads divide over the key heads, the rows over the parts, and no rank is without a key head |
| `QkvLayout.MergeIsSplit` | scripts/legacy_model_merger.py:532-560 | with a tensor-parallel size dividing the groups, merging the shards equals splitting the whole weight |
| `QkvLayout.VisionIsInterleave` | scripts/converter_hf_to_mcore.py:250-256 | the view/transpose/flatten form is the per-group interleaving of the three stacked parts |
| `LayerNumbering.MergeChunk` | verl/model_merger/megatron_model_merger.py:367-384 | renumbers one chunk's layers by the running count and finds its largest layer number |
| `LayerNumbering.MergeStateDicts` | scripts/legacy_model_merger.py:614-659 | every key of every chunk gets the number of layers counted before its chunk plus its local number |
| `LayerNumbering.NumbersAreUnique` | scripts/legacy_model_merger.py:614-659 | two keys of the merged result get one number if and only if they name one layer of one chunk, whatever layers the chunks hold; otherwise the numbers are in the order of the chunks and of the layers within a chunk |
| `LayerNumbering.ConsecutiveIff` | scripts/legacy_model_merger.py:614-659 | the numbers in the merged result are exactly start .. start+L-1 if and only if no chunk without layers precedes one with layers |
| `LayerNumbering.BijectiveIff` | verl/model_merger/megatron_model_merger.py:357-420 | with every rank starting at the number of layers on the ranks before it, the numbers are 0..L-1 and each is given by one rank only, if and only if on no rank a chunk without layers precedes one with layers |
| `LayerNumbering.RanksInOrder` | verl/model_merger/megatron_model_merger.py:357-384 | layers of an earlier rank get smaller numbers |
| `LayerNumbering.SaveRank` | verl/model_merger/megatron_model_merger.py:433-456 | one rank writes its consecutive files and maps every key to the one file whose chunk holds it |
| `LayerNumbering.SaveIndicesAreAll` | verl/model_merger/megatron_model_merger.py:427-452 | every index 0..saves_total-1 is some rank's file |
| `LayerNumbering.SaveIndicesAreUnique` | verl/model_merger/megatron_model_merger.py:427-452 | and of one rank only, within that range |
| `DataProtos.PadDataprotoToDivisor` | verl/protocol.py:73-98 | the loop ends for every size; the result is the least multiple of the divisor long and row j is row j mod n in every column |
| `DataProtos.ChunkIsSlice` | verl/protocol.py:878-895 | torch's chunk of the tensors and numpy's split of the other columns cut at the same rows |
| `DataProtos.TorchSizeIsLeast` | verl/protocol.py:879-880 | the chunk size is the least with which the rows fit into the chunks, and their count the least for that size |
| `DataProtos.ChunkProto` | verl/protocol.py:863-902 | when it succeeds, in which cases exactly; the chunks are then consecutive slices of every column, at torch's or numpy's bounds, equal or not, and concatenating them gives the batch back |
| `DataProtos.ConcatChunks` | verl/protocol.py:863-933 | concatenating the chunks of a batch gives the batch back, equal chunks or not |
| `DataProtos.ConcatSelections` | verl/protocol.py:926-933 | concatenating row selections of one batch selects by the concatenated indices |
| `DataProtos.Dispatch` | verl/protocol.py:73-105 | pad, chunk, compute row-wise on every chunk, concatenate and unpad equals the computation on the whole batch |
| `DataProtos.ConstantSampleLevelRepeat` | verl/protocol.py:1053-1099 | repeating every sample equally often is the interleaved repeat |
| `DataProtos.RepeatEachAt` | verl/protocol.py:1053-1099 | element i takes up its own count of places, after those of the elements before it |
| `PromptLogprobs.GPUModelRunner.FillRows` | sitecustomize.py:123-167 | each scheduled request's rows are written up to its new token count, exactly those positions from its own hidden states, and others stay untouched |
| `PromptLogprobs.GPUModelRunner.GetPromptLogprobs` | sitecustomize.py:111-175 | returns exactly the requests whose chunk finishes the prompt, all rows written once, and forgets exactly those |
| `PromptLogprobs.GPUModelRunner.Step` | sitecustomize.py:111-175 | one scheduler step keeps the request state consistent and is the specified step |
| `PromptLogprobs.ReturnedWhenFinished` | sitecustomize.py:143-171 | over any schedule of chunks and requests, a request is returned exactly at the step that finishes its prompt, with len - 1 rows, row k written exactly once, from the hidden state at position k |
| `NumpySplit.ArraySplitFlattens` | verl/trainer/main_generation_server.py:205-206 | the pieces of np.array_split concatenate to the list |
| `NumpySplit.PieceSizes` | verl/trainer/main_generation_server.py:205-205 | the first len mod parts pieces have one element more than the others |
| `GenerationServer.StepInv` | verl/trainer/main_generation_server.py:170-198 | beginning, completing and collecting in any order keep every answer at its request's index |
| `GenerationServer.AtMostLimitInFlight` | verl/trainer/main_generation_server.py:171-177 | no replica has more requests in flight than its limit |
| `GenerationServer.AdmitsIff` | verl/trainer/main_generation_server.py:171-177 | a waiting request is admitted exactly while fewer are in flight than the limit, and always without one |
| `GenerationServer.NotStuck` | verl/trainer/main_generation_server.py:179-191 | a replica with a result missing can always go on |
| `GenerationServer.RunsEndCollected` | verl/trainer/main_generation_server.py:179-198 | no run has more than three steps per request; all results are in after exactly that many, which is exactly when no replica can go on |
| `GenerationServer.RowsMatchPrompts` | verl/trainer/main_generation_server.py:278-284 | once all results are in, row i of the reshaped results holds the answers to requests i*n .. i*n+n-1, the n requests for prompt i, in order, for any replicas, completion order and limit |
| `GenerationServer.RowsHoldTheTexts` | verl/trainer/main_generation_server.py:179-188 | once all results are in, entry k of row i has the text of the one completion, in the whole run, of the one request numbered i*n+k |

## Left out

- Real transports and devices: ZeroMQ, Ray, NCCL, NIXL and TransferEngine internals, CUDA streams and process-group setup. They are FIFO queues, byte-by-byte asynchronous copies, and sets of copies not yet waited for.
- verl/checkpoint_engine/hccl_checkpoint_engine.py, a synchronous form of the NCCL loop.
- Weights that are not contiguous: the senders' view(-1) raises for them before anything is packed. All sent weights are assumed contiguous.
- Floating point, casts and the KL values themselves: tensors are byte or element sequences.
- Transfer errors: a failed READ, write or broadcast ends the program and is not modelled.
- Oversize weights in the four protocol models: the engines assert that every weight fits; the failing path is in `BucketPacking.BucketSender.SendWeights`.
- Buffers of the protocol models are sequences updated by steps, because several ranks act on them; the packing loop itself is also proved on arrays.
- MooncakeRelay.StepInv: the four acknowledgement bytes arrive in one step and halves have at least four bytes; a second call on the same buffers is not modelled. Every weight has one item size, the cast's, and a half is a whole number of items (the bucket size is a whole number of megabytes).
- NixlRelay.EveryRankDelivers: a rank whose view raises takes no further step; how its exception ends the other processes is not modelled. Likewise for NCCL and Kimi.
- KimiBroadcast.EveryRankDelivers: the bucket list is not empty and every bucket fits; with an empty list the receiver fails on an unassigned variable. The host-to-device staging buffer is not modelled.
- KimiDelivery.EveryRankYieldsTheWeights: how the parameter server cuts the registered tensors into buckets is decided in another package; the lemma holds for every cut that keeps each tensor once.
- NixlAgent.NixlAgent.GetNotification: the polls are a given finite sequence, and None stands for a call that is still waiting.
- OffloadRuns.PopReturnsPushed: strides are not kept by a reload; only shape, type and row-major contents are compared. Activation recomputation is not modelled.
- KlTrainer.KlTrainer.SaveCheckpoint: writing and removing are atomic; a half-written directory, overwriting in place, an explicit resume path, the LoRA metadata file written after the save, and the export of merged models are not modelled. Model and optimizer state are a function of the batches applied.
- KlSamples.SameSamplesIff: one draw from the generator per iteration over the loader; nothing else is assumed to consume the generator between checkpoints, and each order is that of one data-parallel rank.
- KlTrainer.RestartUntilFinished: stands for the job's restarts, which happen outside the program.
- PromptLogprobs.GPUModelRunner.GetPromptLogprobs: every request asks for the full vocabulary, so the fallback to the original method is not modelled; preempted requests that start over are not either.
- GenerationServer.RowsMatchPrompts: a failing request aborts the whole call and leaves no results.
- DataProtos.ChunkProto: the empty batch, on which the tensor library's behaviour is not visible in this repository. meta_info is not modelled, nor are folding, reordering and serialisation.
- LayerNumbering.MergeStateDicts: only the layer number of a key is modelled, not the rest of its name.
- QkvLayout.SplitTensors: the gate/up branch and the other keys, which are one library call each.
- File saving, parquet and JSON input, configuration, model internals, name tables, FLOPs formulas and HTTP retries.
