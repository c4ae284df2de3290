# Verified models of verl's weight transfer, activation offloading and checkpoint reshaping

A Dafny model of the parts of verl in which data moves between processes or changes its layout, with
proofs that nothing is lost, reordered, overwritten or mixed up on the way. The original's loops over
mutable state are methods and classes that are proved against specification functions; its protocols
between ranks are state machines, and what is proved of them holds for every number of ranks, every number
of buckets and every interleaving of their steps.

To check everything: `dafny verify --resource-limit 2000000 dfyconfig.toml`.

## What is modelled

- **Weights** (`Weights.dfy`): cutting tensors into chunks of at most one bucket, and rebuilding them in an
  uninitialised buffer. The round trip is the identity exactly when no tensor is empty.
- **Packing** (`Packing.dfy`): greedy packing of chunks into two alternating buffers, on real arrays; the
  packing bound.
- **Transfer** (`Transfer.dfy`): rebuilding the weights from the packed buckets, where a weight that fits in a
  bucket is viewed in place; the end-to-end identity and its exact condition.
- **NCCL engine** (`NcclBroadcast.dfy`): rank 0 fills one buffer while the broadcast of the other is under
  way, receivers yield from one buffer while the next bucket arrives. A broadcast copies byte by byte, in any
  order, and may complete for rank 0 before the receivers have the bytes.
- **NIXL engine** (`NixlChain.dfy`, `NixlTopology.dfy`): the chain of ranks, with reads, notifications,
  buffer swaps and message queues; the topology lists; successive reads and waits, and what they hand out.
- **Mooncake engine** (`MooncakeChain.dfy`, `MooncakeWeights.dfy`, `MooncakeSlots.dfy`): the same pipeline with
  two completion slots per rank, starting from clear slots, and with a dictionary of metadata per bucket; what
  its receivers yield end to end; what the slots are left at, and what a slot that is still set does to the next
  call.
- **Delta sync** (`DeltaWire.dfy`, `DeltaStream.dfy`, `SparseGather.dfy`, `DeltaSync.dfy`, `DeltaLockstep.dfy`,
  `DeltaRankZero.dfy`, `DeltaRun.dfy`): diffing shards, batched gathers, slicing, flush encoding with int32
  positions, framing with one flush held back, receiving, masked application to the live weights, and the
  agreement of trainer and rollout weights over any sequence of syncs; `DeltaRun.Run` joins them into one run of
  all ranks and a rollout worker.
- **Activation offloading** (`ActivationOffload.dfy`): the handler with its window map, bulk offload and
  reload, pushes, pops and commits, as an object and as a run of a training step.
- **Reshaping** (`PipelinePlan.dfy`, `QkvLayout.dfy`, `StateDictMerge.dfy`, `ShardedSave.dfy`,
  `ExpertStacking.dfy`, `DataProto.dfy`): pipeline stage planning, query/key/value interleaving and its
  inverses, merging model chunks under global layer numbers, saving them to numbered files with a weight map,
  expert stacking with its key strings, batch padding, splitting, chunking and concatenating with their metrics.
- `Arithmetic.dfy` holds facts about products, remainders, even parts and sums that several modules use.

## Where the code does less, or more, than it says

- A zero-byte tensor produces no chunk, so it does not arrive (`Weights.EmptyTensorIsLost`; the exact
  condition is in `Weights.SplitMergeIdentity`). The Mooncake engine, which does not cut weights, transfers it.
- `merge_weight_chunks` views a weight that fits in a bucket in place, and the packing does not align: a byte
  before a four-byte number is enough for the view to be refused (`Transfer.MisalignedIsRefused`), and so are
  four-byte numbers alone when the bucket size is no multiple of four (`Transfer.UnevenBucketIsRefused`). The
  exact condition is in `Transfer.TransferIdentity`; one item size that divides the bucket size meets it
  (`Transfer.OneItemSize`). In the Mooncake engine the second half of the buffer counts as well
  (`MooncakeWeights.OddHalfIsRefused`; the exact condition is in `MooncakeWeights.ViewsIff`).
- The topology lists of the NIXL engine fit exactly for two or more rollout workers
  (`NixlTopology.AcceptedFromTwoRollouts`).
- `get_notification` overwrites the name it was asked for, and can hand out the key of another peer
  (`NixlTopology.AskedForTheOther`; the exact condition is in `NixlTopology.RightPeerIff`). With one reader per
  rank, which is what the chain gives, it is right.
- A Mooncake call needs clear slots and leaves them clear only when it sent one bucket to one receiver
  (`MooncakeSlots.LeftoverSlots`): rank 0 keeps the slot of its last bucket but one, and a middle rank, which
  waits only from its third bucket on, those of its successor's last two. Nothing clears them before the next
  call, which then overwrites a bucket too early, so that a weight arrives with the bytes of another
  (`MooncakeSlots.StaleSlotUnsafe`).
- The Mooncake engine does not check that a name occurs once in a bucket: of two such weights the first is
  lost (`MooncakeWeights.RepeatedNameIsLost`; the exact condition is in
  `MooncakeWeights.ChainTransfersWholeWeights`).
- The masked copy of the delta loader takes a NaN for "unchanged", also for a placement parameter whose
  element has really become a NaN. Agreement is therefore kept exactly when no element changes to a NaN
  (`DeltaSync.SyncKeepsAgreement`, with an input in `DeltaSync.ChangeToNaNIsLost`); without any condition the
  rollout side holds the last number (`DeltaSync.ReceivedIsLastNumber`).
- The offload handler is correct also when every group is offloaded, `num_offload_group == num_model_group`, but
  then only the first group is ever moved: each later one is offloaded by the commit before its tensors are pushed
  (`ActivationOffload.AllGroupsStay`). With fewer groups `ActivationOffload.WhereTensorsAre` has the schedule, and
  the memory bound of two groups holds with one group fewer (`ActivationOffload.AtMostTwoGroups`).
- The pipeline plan can fail with an IndexError although there are enough layers, for example five layers
  on four stages (`PipelinePlan.FiveLayersOnFourStages`; the exact condition is in `PipelinePlan.Winner`).
- A model chunk without any layer still advances the layer counter of `_merge_state_dicts` by one, so the
  layers behind it get wrong numbers, which can be those of the next rank (`StateDictMerge.EmptyChunkCollides`;
  the exact condition is in `StateDictMerge.NumberingIff`).
- A key on two ranks is saved by both, and the weight map names the later one's file
  (`ShardedSave.OneFileIff`).
- A gate/up shard with a single row cannot be cut in two and raises (`QkvLayout.GateUpIff`).
- Concatenating the splits of an empty batch raises, because there are none, and concatenating parts that carry
  metrics does not restore them: they come back as lists (`DataProto.SplitConcat`, `DataProto.AggregatedIff`).
- `chunk` with automatic padding enabled still fails when the tensors do not have rows for every chunk
  (`DataProto.FiveRowsInFourChunks`; the exact condition is in `DataProto.Chunk`).

## Model

| member | source | states |
|---|---|---|
| Weights.SplitWeightChunks | verl/verl/checkpoint_engine/base.py:541-567 | the two nested loops produce exactly the chunks that cover each tensor in order, each of at most one bucket |
| Weights.PendingWeight.constructor | verl/verl/checkpoint_engine/base.py:594-601 | a large weight starts as an uninitialised buffer of its size, with nothing merged yet |
| Weights.PendingWeight.Write | verl/verl/checkpoint_engine/base.py:605-606 | one chunk is written in place at its offset and the merged length grows by its size |
| Weights.AcceptChunk | verl/verl/checkpoint_engine/base.py:586-609 | one round of the rebuilding loop, with every assertion, and the view of a small weight at a byte where its items cannot start, as a failure |
| Weights.MergeWeightChunks | verl/verl/checkpoint_engine/base.py:570-609 | the rebuilding loop over any chunk list gives the result of the step function, or fails exactly where an assertion does |
| Weights.MergeWeight | verl/verl/checkpoint_engine/base.py:591-609 | the chunks of one weight, followed by anything, rebuild that weight and go on with the rest |
| Weights.MergeUndoesSplit | verl/verl/checkpoint_engine/base.py:541-609 | for any bucket size > 0 and any weights, rebuilding the split stream, not yet packed, gives back every tensor that has bytes, in order, with no assertion failing |
| Weights.GapIsRefused | verl/verl/checkpoint_engine/base.py:591-601 | a chunk that is not the next one of the weight being rebuilt, or not the first one of a new large weight, makes the rebuilding fail, whatever follows |
| Weights.SplitMergeIdentity | verl/verl/checkpoint_engine/base.py:553-567 | the round trip is the identity exactly when no tensor is empty: a zero-byte tensor produces no chunk |
| Weights.EmptyTensorIsLost | verl/verl/checkpoint_engine/base.py:553-567 | an input: of a tensor of shape [0] and one of a single byte only the second arrives |
| Packing.PackLayout | verl/verl/checkpoint_engine/nccl_checkpoint_engine.py:252-283 | greedy packing: entries tile each bucket from 0, no bucket exceeds the size, and every cut was forced by the chunk that did not fit |
| Packing.PackContents | verl/verl/checkpoint_engine/nccl_checkpoint_engine.py:252-298 | the buckets hold exactly the chunks, in order |
| Packing.FullBucketsSeparate | verl/verl/checkpoint_engine/nccl_checkpoint_engine.py:278-279 | where all but the last chunk of a weight fill a bucket, no bucket holds two chunks of one name: the assertion of the loop |
| Packing.SplitIsFull | verl/verl/checkpoint_engine/base.py:555-567 | the split stream has that shape |
| Packing.PackCorrect | verl/verl/checkpoint_engine/nccl_checkpoint_engine.py:252-298 | the packing of a split stream: valid buckets, distinct names in each, contents preserved |
| Packing.PackCount | verl/verl/checkpoint_engine/nccl_checkpoint_engine.py:252-283 | m buckets carrying T > 0 bytes satisfy (m - 1) * B < 2 * T |
| Packing.BucketWriter.Publish | verl/verl/checkpoint_engine/nccl_checkpoint_engine.py:255-276 | a full buffer is broadcast with its metadata and the two buffers are swapped |
| Packing.BucketWriter.Append | verl/verl/checkpoint_engine/nccl_checkpoint_engine.py:278-284 | a chunk is copied behind the entries of the bucket and recorded with its offset; what was there stays readable |
| Packing.SendChunk | verl/verl/checkpoint_engine/nccl_checkpoint_engine.py:252-284 | one round of the loop of send_weights on the real buffers follows the packing |
| Packing.SendWeights | verl/verl/checkpoint_engine/nccl_checkpoint_engine.py:249-297 | no assertion of the loop fails, and the published images hold exactly the buckets of the packing, the last one marked |
| Transfer.PlacedMerge | verl/verl/checkpoint_engine/base.py:586-592 | where chunks lie in their buckets matters for the views only: the rebuilding of packed chunks is that of the unpacked ones, or stops at the first small weight whose view is refused |
| Transfer.TransferIdentity | verl/verl/checkpoint_engine/nccl_checkpoint_engine.py:252-368 | splitting, packing, unpacking and rebuilding gives back the weights that have bytes exactly when every weight that fits in a bucket lies in its bucket where its items can start; otherwise it fails after a proper prefix of them |
| Transfer.MultiplesAreAligned | verl/verl/checkpoint_engine/nccl_checkpoint_engine.py:252-283 | what a caller can look after: an m that divides the bucket size and the bytes of every weight, and that every item size divides |
| Transfer.OneItemSize | verl/verl/checkpoint_engine/nccl_checkpoint_engine.py:252-283 | above all, one item size that divides the bucket size |
| Transfer.MisalignedIsRefused | verl/verl/checkpoint_engine/base.py:588-592 | an input: a byte before a four-byte number, in buckets of eight bytes, and the number is refused |
| Transfer.UnevenBucketIsRefused | verl/verl/checkpoint_engine/base.py:588-592 | an input with four-byte numbers only, in buckets of six bytes |
| NcclBroadcast.StepKeepsInv | verl/verl/checkpoint_engine/nccl_checkpoint_engine.py:256-298 | every step of rank 0 and of every receiver keeps the invariant, for any number of receivers, buckets and any interleaving |
| NcclBroadcast.NoOverwrite | verl/verl/checkpoint_engine/nccl_checkpoint_engine.py:256-284 | rank 0 never writes a buffer whose broadcast it has not awaited |
| NcclBroadcast.ViewsStable | verl/verl/checkpoint_engine/nccl_checkpoint_engine.py:340-368 | what a receiver yields from keeps its value until its whole bucket has been yielded |
| NcclBroadcast.StuckOnlyWhenDone | verl/verl/checkpoint_engine/nccl_checkpoint_engine.py:289-298 | no deadlock: a state without an enabled step is one in which everyone has finished |
| NcclBroadcast.RunIsBounded | verl/verl/checkpoint_engine/nccl_checkpoint_engine.py:256-368 | every step lowers a measure, so every run is finite |
| NcclBroadcast.BroadcastDelivers | verl/verl/checkpoint_engine/nccl_checkpoint_engine.py:314-368 | every complete run hands every receiver exactly the buckets, in order and byte for byte |
| NcclBroadcast.BroadcastTransfersWeights | verl/verl/checkpoint_engine/nccl_checkpoint_engine.py:249-368 | end to end: every receiver rebuilds the weights that rank 0 was given exactly when every weight that fits in a bucket is aligned in it, and otherwise fails after a proper prefix |
| NixlTopology.AcceptedFromTwoRollouts | verl/verl/checkpoint_engine/nixl_checkpoint_engine.py:288-305 | the lists of build_topology have the lengths that the manager checks exactly for two or more rollout workers |
| NixlTopology.InitAcceptsIff | verl/verl/checkpoint_engine/nixl_checkpoint_engine.py:313-336 | which neighbours the assertions of init_process_group accept: a predecessor exactly behind rank 0, a successor exactly for ranks 0 to world_size - 2 |
| NixlTopology.TopologyIsChain | verl/verl/checkpoint_engine/nixl_checkpoint_engine.py:288-336 | for two or more rollout workers every rank is linked to its neighbours in a chain and passes its own assertions |
| NixlTopology.Mailbox.ReadMessage | verl/verl/checkpoint_engine/nixl_checkpoint_engine.py:128-132 | messages of all senders are queued by sender until the awaited one has one: its oldest is handed out and leaves its queue, and every other queue is as the deliveries made it |
| NixlTopology.DeliveredInOrder | verl/verl/checkpoint_engine/nixl_checkpoint_engine.py:128-132 | however the senders interleave, the messages of each one are queued in the order it sent them |
| NixlTopology.MessagesAre | verl/verl/checkpoint_engine/nixl_checkpoint_engine.py:128-132 | what the law speaks of: the messages of one sender among all that arrives, each once, in order of arrival |
| NixlTopology.Mailbox.ReadMessages | verl/verl/checkpoint_engine/nixl_checkpoint_engine.py:128-132 | k reads from one sender, one after the other, hand out the first k of what was queued for it followed by what arrives from it, in order and each once, and leave all other queues alone |
| NixlTopology.Notifications.TakePoll | verl/verl/checkpoint_engine/nixl_checkpoint_engine.py:134-140 | one poll queues every key under the peer that sent it and rebinds the name that was asked for |
| NixlTopology.QueuedInOrder | verl/verl/checkpoint_engine/nixl_checkpoint_engine.py:134-140 | over any polls, with any peers, the keys of a peer are queued in their order of arrival |
| NixlTopology.Notifications.GetNotification | verl/verl/checkpoint_engine/nixl_checkpoint_engine.py:134-140 | for any peers and polls: the wait ends at the first poll after which the peer named last has a key; the oldest key of that peer, not of the one asked for, is handed out and leaves its queue, and every other queue is as the polls made it |
| NixlTopology.RightPeerIff | verl/verl/checkpoint_engine/nixl_checkpoint_engine.py:134-140 | the wait looks at the peer it was asked for exactly when every poll that is not empty lists that peer last |
| NixlTopology.OneReaderIsRight | verl/verl/checkpoint_engine/nixl_checkpoint_engine.py:134-140 | with one reader per rank, as in the chain, the wait is right |
| NixlTopology.KeysAre | verl/verl/checkpoint_engine/nixl_checkpoint_engine.py:134-140 | the keys of one peer among all polls, each once, in order of arrival |
| NixlTopology.Notifications.GetNotifications | verl/verl/checkpoint_engine/nixl_checkpoint_engine.py:134-140 | k waits, one after the other, in polls that, unless they are empty, list that peer last, hand out the first k of its queued keys followed by its arriving ones, in order and each once |
| NixlTopology.AskedForTheOther | verl/verl/checkpoint_engine/nixl_checkpoint_engine.py:134-140 | an input: two peers in one poll, and the key of the one that was not asked for comes back |
| NixlChain.InitInv | verl/verl/checkpoint_engine/nixl_checkpoint_engine.py:378-396 | the state in which a call starts satisfies the invariant |
| NixlChain.StepFillChunk | verl/verl/checkpoint_engine/nixl_checkpoint_engine.py:399-436 | rank 0 copies a chunk into its current bucket: the invariant is kept and the assertion on the size holds |
| NixlChain.StepPublish | verl/verl/checkpoint_engine/nixl_checkpoint_engine.py:166-168 | publishing a bucket keeps the invariant: at most one readable operation is outstanding on a link |
| NixlChain.StepTakeNotif | verl/verl/checkpoint_engine/nixl_checkpoint_engine.py:170-174 | the notification that is awaited is the one of the outstanding operation |
| NixlChain.StepBeginRead | verl/verl/checkpoint_engine/nixl_checkpoint_engine.py:200-219 | starting a read into the idle buffer keeps the invariant |
| NixlChain.StepCopyByte | verl/verl/checkpoint_engine/nixl_checkpoint_engine.py:211-219 | a read copies bytes of the source buffer one by one, interleaved with everything else |
| NixlChain.StepFinishXfer | verl/verl/checkpoint_engine/nixl_checkpoint_engine.py:221-236 | a completed read holds the whole bucket and notifies its source |
| NixlChain.StepEndYield | verl/verl/checkpoint_engine/nixl_checkpoint_engine.py:491-500 | handing over the last entry of a bucket |
| NixlChain.StepTakeRead | verl/verl/checkpoint_engine/nixl_checkpoint_engine.py:511-523 | waiting for the read and swapping the buffers |
| NixlChain.StepKeepsInv | verl/verl/checkpoint_engine/nixl_checkpoint_engine.py:397-526 | every step of every rank, in any state of the invariant, keeps it: any chain length, bucket count and interleaving |
| NixlChain.ChainSafety | verl/verl/checkpoint_engine/nixl_checkpoint_engine.py:397-526 | in every reachable state each rank has yielded a prefix of exactly the entries of rank 0, notifications match, and no buffer is read into while it is read from |
| NixlChain.NoOverwrite | verl/verl/checkpoint_engine/nixl_checkpoint_engine.py:397-436 | nobody writes a buffer while its successor reads it |
| NixlChain.ViewsStable | verl/verl/checkpoint_engine/nixl_checkpoint_engine.py:491-523 | the views a rank has yielded stay valid until the bucket is finished |
| NixlChain.StuckOnlyWhenFinished | verl/verl/checkpoint_engine/nixl_checkpoint_engine.py:166-236 | no deadlock: some step is enabled until every rank has finished |
| NixlChain.StepDecreases | verl/verl/checkpoint_engine/nixl_checkpoint_engine.py:475-526 | a global measure falls with every step and is never negative |
| NixlChain.RunIsBounded | verl/verl/checkpoint_engine/nixl_checkpoint_engine.py:475-526 | so every run is finite |
| NixlChain.ChainDelivers | verl/verl/checkpoint_engine/nixl_checkpoint_engine.py:397-526 | every complete run ends with all ranks done and every rollout rank in possession of exactly the sequence of rank 0 |
| NixlChain.ChainTransfersWeights | verl/verl/checkpoint_engine/nixl_checkpoint_engine.py:371-532 | end to end: every rollout rank rebuilds the weights that have bytes exactly when every weight that fits in a bucket is aligned in it, and otherwise fails after a proper prefix |
| MooncakeChain.StepSend | verl/verl/checkpoint_engine/mooncake_checkpoint_engine.py:180-204 | rank 0 announces a bucket and goes on with the other buffer |
| MooncakeChain.StepTakeSlot | verl/verl/checkpoint_engine/mooncake_checkpoint_engine.py:149-155 | testing and clearing a completion slot |
| MooncakeChain.StepSignal | verl/verl/checkpoint_engine/mooncake_checkpoint_engine.py:293-310 | setting the slot of the predecessor after the bucket is consumed |
| MooncakeChain.AwaitedIsNext | verl/verl/checkpoint_engine/mooncake_checkpoint_engine.py:149-155 | the signal a rank waits for is that of the bucket it is about to overwrite, never of another one |
| MooncakeChain.SlotWasClear | verl/verl/checkpoint_engine/mooncake_checkpoint_engine.py:293-310 | no signal is lost: a slot is clear when it is set |
| MooncakeChain.StepKeepsInv | verl/verl/checkpoint_engine/mooncake_checkpoint_engine.py:158-315 | every step keeps the invariant, from clear slots, for any chain length, bucket count and interleaving |
| MooncakeChain.ChainSafety | verl/verl/checkpoint_engine/mooncake_checkpoint_engine.py:158-315 | in every reachable state each rank has yielded a prefix of the entries of rank 0, and rank 0 is done only after rank 1 has consumed every bucket |
| MooncakeChain.NoOverwrite | verl/verl/checkpoint_engine/mooncake_checkpoint_engine.py:180-204 | no rank overwrites the buffer that its successor is reading |
| MooncakeChain.StuckOnlyWhenFinished | verl/verl/checkpoint_engine/mooncake_checkpoint_engine.py:149-227 | no deadlock |
| MooncakeChain.RunIsBounded | verl/verl/checkpoint_engine/mooncake_checkpoint_engine.py:158-315 | every run is finite |
| MooncakeChain.ListedIff | verl/verl/checkpoint_engine/mooncake_checkpoint_engine.py:209-214 | the dictionary of a bucket keeps an entry for each name; it lists all entries, in order, exactly when no name occurs twice in the bucket |
| MooncakeChain.ListedLast | verl/verl/checkpoint_engine/mooncake_checkpoint_engine.py:209-214 | in general it lists the last entry of every name, in the order of the first entries |
| MooncakeChain.ChainDelivers | verl/verl/checkpoint_engine/mooncake_checkpoint_engine.py:158-315 | every complete run delivers to every rank exactly what the dictionaries of the buckets list, in order and byte for byte |
| MooncakeWeights.ViewsIff | verl/verl/checkpoint_engine/mooncake_checkpoint_engine.py:256-288 | no view is refused in any reachable state when every weight lies, in its half of the buffer, where its items can start; and a complete call refuses none exactly then |
| MooncakeWeights.MultiplesFit | verl/verl/checkpoint_engine/mooncake_checkpoint_engine.py:256-288 | what a caller can look after: an m that divides the bucket size and the bytes of every weight, and that every item size divides, aligns both halves |
| MooncakeWeights.OddHalfIsRefused | verl/verl/checkpoint_engine/mooncake_checkpoint_engine.py:256-288 | an input: two four-byte numbers in buckets of six bytes, of which the second half of the buffer starts at byte 6 |
| MooncakeWeights.ChainTransfersWholeWeights | verl/verl/checkpoint_engine/mooncake_checkpoint_engine.py:158-315 | end to end, with its own packing of whole weights and with zero-byte ones: every receiver yields all names, shapes, types and bytes of rank 0, in order and with no view refused, exactly when no bucket holds two weights of one name and every weight is aligned in its half of the buffer |
| MooncakeWeights.DistinctNamesApart | verl/verl/checkpoint_engine/mooncake_checkpoint_engine.py:183-216 | weights of distinct names meet that condition for every bucket size |
| MooncakeWeights.RepeatedNameIsLost | verl/verl/checkpoint_engine/mooncake_checkpoint_engine.py:209-214 | an input: of two weights of one name in one bucket only the second is ever yielded |
| MooncakeSlots.LeftoverSlots | verl/verl/checkpoint_engine/mooncake_checkpoint_engine.py:149-315 | which slots of which ranks a complete call leaves set; all are clear again exactly when it sent one bucket to one receiver |
| MooncakeChain.CanComplete | verl/verl/checkpoint_engine/mooncake_checkpoint_engine.py:149-315 | every state of the invariant can be run to the end, so there are such calls |
| MooncakeSlots.OneBucketThreeRanks | verl/verl/checkpoint_engine/mooncake_checkpoint_engine.py:262-265 | an input: one weight over three ranks leaves a slot of rank 1 set |
| MooncakeSlots.TwoBucketsTwoRanks | verl/verl/checkpoint_engine/mooncake_checkpoint_engine.py:180-204 | an input: two weights that need a bucket each, over two ranks, leave a slot of rank 0 set |
| MooncakeSlots.StaleSlotUnsafe | verl/verl/checkpoint_engine/mooncake_checkpoint_engine.py:149-204 | what comes of it: with three one-byte weights, a next call that starts with such a slot yields the first weight with the byte of the third |
| ActivationOffload.BuildWindowMap | verl/verl/utils/activation_offload.py:248-257 | the loop of the constructor computes the closed form of the window map |
| ActivationOffload.WindowStep | verl/verl/utils/activation_offload.py:248-257 | map[j] >= j, and >= j + 1 when fewer groups than layers are offloaded; map[last] = n - 1; the gap after entry j is n div num, and one more while j + 1 < n mod num |
| ActivationOffload.WindowIncreasing | verl/verl/utils/activation_offload.py:248-257 | the window map is strictly increasing |
| ActivationOffload.WindowOneBehind | verl/verl/utils/activation_offload.py:248-257 | with one group fewer than layers, group i is released at commit i + 1 |
| ActivationOffload.AsyncDoubleBufferHandler.constructor | verl/verl/utils/activation_offload.py:228-261 | a handler starts with empty dictionaries, zero counters and the window map |
| ActivationOffload.AsyncDoubleBufferHandler.TensorPush | verl/verl/utils/activation_offload.py:263-283 | a push stores the tensor on the device under the next tag, and exactly for offloaded groups in the buffer dictionary; a tensor that need not be offloaded stands for itself and leaves the handler alone |
| ActivationOffload.AsyncDoubleBufferHandler.TensorPop | verl/verl/utils/activation_offload.py:285-296 | a pop removes the tag from both dictionaries and returns the tensor, or fails if it is on the CPU; a tensor that stood for itself comes back as it is |
| ActivationOffload.AsyncDoubleBufferHandler.BulkOffloadGroup | verl/verl/utils/activation_offload.py:298-317 | the loop over the dictionary replaces every tensor of the group and copies the first tensor of each key |
| ActivationOffload.AsyncDoubleBufferHandler.BulkReloadGroup | verl/verl/utils/activation_offload.py:354-371 | the loop rebuilds every tensor of the group from the copy of its key |
| ActivationOffload.AsyncDoubleBufferHandler.ReleaseGroupBuffers | verl/verl/utils/activation_offload.py:335-338 | the buffers of one group are set to None |
| ActivationOffload.AsyncDoubleBufferHandler.SynchronizeOnGroupCommitForward | verl/verl/utils/activation_offload.py:319-345 | a forward commit starts group 0, closes a due window and offloads the next group |
| ActivationOffload.AsyncDoubleBufferHandler.OnGroupCommitForward | verl/verl/utils/activation_offload.py:347-352 | the whole forward commit |
| ActivationOffload.AsyncDoubleBufferHandler.OnGroupCommitBackward | verl/verl/utils/activation_offload.py:373-395 | the whole backward commit |
| ActivationOffload.PushOk | verl/verl/utils/activation_offload.py:263-283 | a push cannot fail and keeps the invariant |
| ActivationOffload.PopOk | verl/verl/utils/activation_offload.py:285-296 | a pop after the backward commit of its group cannot fail and returns the shape and contents that were pushed |
| ActivationOffload.OffloadOk | verl/verl/utils/activation_offload.py:298-317 | moving a group to the CPU, with one copy per key, keeps what every tag stands for |
| ActivationOffload.ReloadOk | verl/verl/utils/activation_offload.py:354-371 | bringing a group back finds every key and rebuilds every tensor |
| ActivationOffload.CommitForwardOk | verl/verl/utils/activation_offload.py:319-352 | a forward commit finds its window entry, never offloads a group twice, and keeps the invariant |
| ActivationOffload.CommitBackwardOk | verl/verl/utils/activation_offload.py:373-395 | a backward commit finds its window entry, reloads the right group, and keeps the invariant |
| ActivationOffload.RunAllOk | verl/verl/utils/activation_offload.py:263-395 | no operation of any legal run fails, and all its pops return what was pushed |
| ActivationOffload.EndsFresh | verl/verl/utils/activation_offload.py:373-395 | after the last backward commit and pop the handler is in its initial state |
| ActivationOffload.TrainingStep | verl/verl/utils/activation_offload.py:263-395 | the whole training step for 1 <= num_offload_group <= num_model_group: no failure, every pop right, initial state at the end |
| ActivationOffload.ResidentRange | verl/verl/utils/activation_offload.py:319-395 | the groups in device memory lie between the first group not released and the current one |
| ActivationOffload.AtMostTwoGroups | verl/verl/utils/activation_offload.py:500-506 | with one group fewer than layers, at most two groups, neighbours, are in device memory at any point |
| ActivationOffload.HeldUntilReleased | verl/verl/utils/activation_offload.py:263-345 | every saved tensor of an offloaded group is held in its buffer until the commit that closes the window of its group, and from there on it is not |
| ActivationOffload.ResidentIff | verl/verl/utils/activation_offload.py:319-395 | so, in any state of the invariant, a group with a saved tensor is in device memory exactly if it has not been released |
| ActivationOffload.WhereTensorsAre | verl/verl/utils/activation_offload.py:263-395 | the whole schedule over all legal runs: the group of a saved tensor is in device memory exactly if it is not offloaded or its window, written as a commit number, is not closed; and the buffer of the tensor holds the pushed tensor exactly as long in the forward pass |
| ActivationOffload.AllGroupsStay | verl/verl/utils/activation_offload.py:319-345 | when all groups are offloaded, num_offload_group == num_model_group, no tensor behind the first group is ever moved to the CPU |
| DeltaWire.PackedRoundTrip | verl/verl/checkpoint_engine/delta_checkpoint_engine.py:254-256 | int32 positions read back from the wire are the positions that were sent |
| DeltaWire.PackedBytes | verl/verl/checkpoint_engine/delta_checkpoint_engine.py:260-282 | position k is four bytes from byte 4 * k on, the lowest first |
| DeltaWire.AssembleFlush | verl/verl/checkpoint_engine/delta_checkpoint_engine.py:237-286 | a flush decodes to exactly the bucket, its ranges tile both buffers, and it is refused exactly when a tensor has 2^31 elements or more |
| DeltaWire.AssembleDense | verl/verl/checkpoint_engine/delta_checkpoint_engine.py:312-337 | the dense flush decodes to exactly the bucket |
| DeltaWire.RolloutModel.LoadWeights | verl/verl/workers/rollout/sglang_rollout/delta_loader.py:138-160 | loading a chunk of densified tensors, of one tensor or of at most 512 MiB, in place, masked or plain, applies its entries |
| DeltaWire.RolloutModel.ApplyDelta | verl/verl/workers/rollout/sglang_rollout/delta_loader.py:57-109 | decoding and loading a flush in bounded chunks applies its entries one after the other |
| DeltaWire.ScatterAt | verl/verl/workers/rollout/sglang_rollout/delta_loader.py:112-135 | index_copy writes exactly the listed positions |
| DeltaWire.ApplyEntryAt | verl/verl/workers/rollout/sglang_rollout/delta_loader.py:138-160 | element by element: a listed number overwrites, a NaN or unlisted element stays |
| DeltaWire.SlicesRestore | verl/verl/checkpoint_engine/delta_checkpoint_engine.py:444-450 | no slice exceeds the limit, none is empty, all but the last have exactly the limit, and their concatenation is the delta |
| DeltaWire.SlicingInvisible | verl/verl/checkpoint_engine/delta_checkpoint_engine.py:444-450 | applying the slices one after the other has the effect of the whole delta |
| DeltaStream.FlushStream.Emit | verl/verl/checkpoint_engine/delta_checkpoint_engine.py:417-422 | the held-back flush goes out, marked or not |
| DeltaStream.FlushStream.Seal | verl/verl/checkpoint_engine/delta_checkpoint_engine.py:424-431 | a bucket becomes the held-back flush, and the one before it goes out unmarked |
| DeltaStream.FlushStream.Put | verl/verl/checkpoint_engine/delta_checkpoint_engine.py:447-450 | an entry adds its values times the item size, and eight bytes for each position of a sparse one; as soon as that reaches the bucket size, and not before, the bucket with the entry becomes the held-back flush and the flush before it goes out |
| DeltaStream.BytesAre | verl/verl/checkpoint_engine/delta_checkpoint_engine.py:447-450 | what a bucket counts: eight bytes for each of its positions and the item size for each of its values |
| DeltaStream.FlushSize | verl/verl/checkpoint_engine/delta_checkpoint_engine.py:447-450 | every flush of a sync but the last has reached the bucket size, by that count, and without its last entry it has not |
| DeltaStream.TwoElementsTwoFlushes | verl/verl/checkpoint_engine/delta_checkpoint_engine.py:447-563 | an input: two float32 parameters with one changed element each, in buckets of twelve bytes, go out as two flushes |
| DeltaStream.FlushStream.Consume | verl/verl/checkpoint_engine/delta_checkpoint_engine.py:436-450 | a gathered delta is added to the stream in slices, and the totals are kept |
| DeltaStream.FlushStream.BucketDense | verl/verl/checkpoint_engine/delta_checkpoint_engine.py:339-346 | a dense tensor is added to the stream |
| DeltaStream.FlushStream.Finish | verl/verl/checkpoint_engine/delta_checkpoint_engine.py:556-563 | the messages of a sync are full flushes and one final one, or a terminal marker alone exactly when there is nothing to send; together they carry exactly the stream |
| DeltaStream.ReceiveWeights | verl/verl/checkpoint_engine/delta_checkpoint_engine.py:172-214 | the receive loop takes exactly the messages of one sync off the wire, and the live weights see exactly the entries of the stream |
| SparseGather.DiffExact | verl/verl/checkpoint_engine/delta_sync/sparse_gather.py:36-54 | the diff holds exactly the changed positions, with the new values |
| SparseGather.DiffIncreasing | verl/verl/checkpoint_engine/delta_sync/sparse_gather.py:36-54 | in increasing order |
| SparseGather.GatheredIsFullDiff | verl/verl/checkpoint_engine/delta_sync/sparse_gather.py:15-27 | gathering the diffs of the shards gives the diff of the full tensor |
| SparseGather.ConcatAt | verl/verl/checkpoint_engine/delta_sync/sparse_gather.py:15-27 | the full tensor: element x of a rank comes after all elements of the ranks before it |
| SparseGather.Offsets | verl/verl/checkpoint_engine/delta_sync/sparse_gather.py:108-112 | the cumulative counts |
| SparseGather.GatherGrouped | verl/verl/checkpoint_engine/delta_sync/sparse_gather.py:57-120 | the batched gather with boundaries returns, for each parameter, the delta of every rank |
| SparseGather.GatherBatched | verl/verl/checkpoint_engine/delta_sync/sparse_gather.py:57-130 | the batched gather equals one concatenating gather per parameter |
| SparseGather.GatherDense | verl/verl/checkpoint_engine/delta_sync/sparse_gather.py:133-171 | writing every shard at its offset gives the full tensor |
| DeltaSync.EntryEffect | verl/verl/checkpoint_engine/delta_checkpoint_engine.py:488-512 | what one tensor receives in a sync, by either profile: exactly the elements that changed to a number |
| DeltaSync.ExportedAt | verl/verl/checkpoint_engine/delta_checkpoint_engine.py:488-512 | the trainer tensor itself, element by element, by either profile |
| DeltaSync.SyncEffect | verl/verl/checkpoint_engine/delta_checkpoint_engine.py:436-554 | every tensor is stepped once, whatever the order in which the parameters are sent |
| DeltaSync.SyncKeepsAgreement | verl/verl/checkpoint_engine/delta_checkpoint_engine.py:399-563 | from agreement, a sparse sync keeps the rollout weights equal to the trainer exactly when no element changes to a NaN |
| DeltaSync.ChangeToNaNIsLost | verl/verl/workers/rollout/sglang_rollout/delta_loader.py:138-160 | an input: one element becomes a NaN, and the rollout side keeps the old number |
| DeltaSync.SyncsAgree | verl/verl/checkpoint_engine/delta_checkpoint_engine.py:288-563 | so after a dense seed and any number of such syncs they are equal after every one |
| DeltaSync.ReceivedIsLastNumber | verl/verl/checkpoint_engine/delta_checkpoint_engine.py:288-563 | without any condition, after any sequence of syncs each element on the rollout side is the last number the trainer element has been, or its seeded value |
| DeltaSync.CurrentIff | verl/verl/workers/rollout/sglang_rollout/delta_loader.py:138-160 | when that is the current value of the trainer |
| DeltaLockstep.PlanOk | verl/verl/checkpoint_engine/delta_checkpoint_engine.py:452-554 | every parameter is in exactly one batch, of at most max(batch_gather, 1) parameters of one group and one profile |
| DeltaLockstep.PlanIsGreedy | verl/verl/checkpoint_engine/delta_checkpoint_engine.py:528-554 | the batches of each kind hold its parameters in the order of the stream; a batch is flushed only when it is full, when the next one belongs to another process group, or at the end of the stream |
| DeltaLockstep.FiveParameters | verl/verl/checkpoint_engine/delta_checkpoint_engine.py:528-554 | an input: the batches of five parameters of both kinds, in the order in which they are flushed |
| DeltaLockstep.GatherQueue.FlushGroup | verl/verl/checkpoint_engine/delta_checkpoint_engine.py:452-476 | a placement batch is flushed with the payloads of its members |
| DeltaLockstep.GatherQueue.FlushNanGroup | verl/verl/checkpoint_engine/delta_checkpoint_engine.py:478-512 | a converter batch is flushed with the payloads of its members |
| DeltaLockstep.GatherQueue.Add | verl/verl/checkpoint_engine/delta_checkpoint_engine.py:528-551 | one round of the loop queues the parameter and flushes on a change of group or a full batch |
| DeltaLockstep.TrainerRank.Seed | verl/verl/checkpoint_engine/delta_checkpoint_engine.py:348-353 | after the seed every snapshot equals its shard |
| DeltaLockstep.TrainerRank.TakeDelta | verl/verl/checkpoint_engine/delta_checkpoint_engine.py:514-527 | one shard is diffed against its snapshot, which is brought up to date |
| DeltaLockstep.TrainerRank.IssueGathers | verl/verl/checkpoint_engine/delta_checkpoint_engine.py:514-554 | the sequence of gathers depends only on the specs and the batch size; every snapshot ends up equal to its shard |
| DeltaLockstep.RanksInLockstep | verl/verl/checkpoint_engine/delta_checkpoint_engine.py:452-554 | ranks with the same specs issue matching gathers, whatever has changed on each |
| DeltaRankZero.CallPayload | verl/verl/checkpoint_engine/delta_checkpoint_engine.py:514-554 | what a rank passes to a gather is its part of the diff of the full tensor |
| DeltaRankZero.GatherPlaced | verl/verl/checkpoint_engine/delta_checkpoint_engine.py:452-476 | the gathered deltas of a placement batch are the diffs of the full tensors |
| DeltaRankZero.RebuildBatch | verl/verl/checkpoint_engine/delta_checkpoint_engine.py:478-497 | the NaN-sentinel buffers hold exactly the changed elements of each rank |
| DeltaRankZero.ConsumeConverted | verl/verl/checkpoint_engine/delta_checkpoint_engine.py:493-512 | what the converter makes of them goes into the stream |
| DeltaRankZero.SendWeights | verl/verl/checkpoint_engine/delta_checkpoint_engine.py:399-563 | rank 0 publishes a framed stream that carries the entries of every parameter exactly once |
| DeltaRankZero.SyncRollout | verl/verl/checkpoint_engine/delta_checkpoint_engine.py:172-563 | from what all ranks pass to the gathers to the live weights of a rollout worker: one sync, from rank 0 on |
| DeltaRankZero.SendDenseSeed | verl/verl/checkpoint_engine/delta_checkpoint_engine.py:288-383 | the first sync publishes every tensor densely, in the order of the stream |
| DeltaRankZero.SeedRollout | verl/verl/checkpoint_engine/delta_checkpoint_engine.py:288-383 | the first sync, from the shards of all ranks to the live weights of a rollout worker |
| DeltaRun.ViewCarried | verl/verl/checkpoint_engine/delta_checkpoint_engine.py:514-527 | the snapshots that one sync leaves are what the next one takes the shards to have been, for every rank and parameter |
| DeltaRun.IssueAll | verl/verl/checkpoint_engine/delta_checkpoint_engine.py:514-554 | all ranks diff their shards: what they pass to the gathers is the batch-wise diff of the full tensors, and every snapshot ends up current |
| DeltaRun.Sync | verl/verl/checkpoint_engine/delta_checkpoint_engine.py:172-563 | one sparse sync as a whole, all ranks and a rollout worker, with nothing assumed but current snapshots |
| DeltaRun.Run | verl/verl/checkpoint_engine/delta_checkpoint_engine.py:172-563 | the whole history, seed and syncs: every snapshot is its shard, every rollout element is the last number of the trainer element, and the rollout weights are those of the trainer if no element changed to a NaN |
| PipelinePlan.FindStrategies | verl/verl/model_merger/megatron_model_merger.py:79-91 | the search collects exactly the kept candidates, in order |
| PipelinePlan.KeptIff | verl/verl/model_merger/megatron_model_merger.py:82-85 | a middle size is kept exactly from ceil(L / pp) on, as long as two layers are left over |
| PipelinePlan.Winner | verl/verl/model_merger/megatron_model_merger.py:79-94 | the first candidate of the stable sort has middle stages of exactly ceil(L / pp); there is one exactly when ceil(L / pp) * (pp - 2) + 2 <= L |
| PipelinePlan.GetDynamicPipelineShards | verl/verl/model_merger/megatron_model_merger.py:57-98 | every outcome: which error when, and otherwise pp positive entries that sum to L and do not exceed ceil(L / pp) |
| PipelinePlan.LeastLargest | verl/verl/model_merger/megatron_model_merger.py:57-67 | no distribution has a smaller largest stage than ceil(L / pp) |
| PipelinePlan.FiveLayersOnFourStages | verl/verl/model_merger/megatron_model_merger.py:93-94 | the search fails for five layers on four stages, although there are enough layers |
| QkvLayout.InterleavedGroup | verl/scripts/converter_hf_to_mcore.py:155-160 | head g of the fused rows is its query rows, its key rows, its value rows |
| QkvLayout.SplitQkv | verl/verl/model_merger/megatron_model_merger.py:330-354 | the split of one tensor, with every error |
| QkvLayout.MergeAcrossTp | verl/scripts/legacy_model_merger.py:534-562 | the merge of tensor parallel shards, with every error |
| QkvLayout.SplitsIff | verl/scripts/legacy_model_merger.py:548-562 | the split fails exactly when a chunk has other than its query, key and value rows |
| QkvLayout.PiecesAre | verl/scripts/legacy_model_merger.py:523-533 | what torch.chunk gives for any number of rows: piece i starts at row i * size, all but the last are full and none is empty |
| QkvLayout.QkvRoundTrip | verl/scripts/legacy_model_merger.py:534-562 | interleaving, cutting into tp contiguous shards with tp dividing the key/value heads, and merging gives back q, k and v |
| QkvLayout.QkvSplitRoundTrip | verl/verl/model_merger/megatron_model_merger.py:330-354 | interleaving and splitting gives back q, k and v |
| QkvLayout.MergeGateUp | verl/scripts/legacy_model_merger.py:523-533 | the gate/up merge of all shards, with its error |
| QkvLayout.GateUpIff | verl/scripts/legacy_model_merger.py:523-533 | the merge fails exactly when some shard has a single row; otherwise each shard adds its first half, with the odd row, to the gate and its second half to the up projection |
| QkvLayout.GateUpRoundTrip | verl/scripts/legacy_model_merger.py:523-533 | shards that stack their parts of gate and up merge to the two whole tensors |
| StateDictMerge.MergeStateDicts | verl/verl/model_merger/megatron_model_merger.py:358-418 | the loop over model chunks enters every tensor, or every part of a fused one, under its renumbered key, in order |
| StateDictMerge.WritesDistinctIff | verl/verl/model_merger/megatron_model_merger.py:358-418 | no write overwrites another exactly when no chunk has a key twice and no layerless name is in two chunks: layers of different chunks never meet |
| StateDictMerge.MergedExactly | verl/verl/model_merger/megatron_model_merger.py:358-418 | what the dictionary holds: the renumbered keys and nothing else, and with no key written twice every tensor of every chunk at its key; its size tells whether one was lost |
| StateDictMerge.NamesApartIff | verl/verl/model_merger/megatron_model_merger.py:358-418 | when no key is written twice, in terms of names: within a layer of one chunk, and for tensors without a layer everywhere, all names are different |
| StateDictMerge.TensorsInPlace | verl/verl/model_merger/megatron_model_merger.py:404-412 | then every whole tensor is at its layer number and name, the gate and up parts at the name with gate and with up for gate_up, and the query, key and value parts at the name with q, k and v for qkv |
| StateDictMerge.FusedTensorsInPlace | verl/verl/model_merger/megatron_model_merger.py:404-412 | the same with the names written out: p + gate_up + s becomes p + gate + s and p + up + s, p + qkv + s becomes p + q + s, p + k + s and p + v + s |
| StateDictMerge.DenseLayerNames | verl/verl/model_merger/megatron_model_merger.py:404-412 | an input: all that mlp.gate_up_proj.weight and self_attn.qkv_proj.weight put into the dictionary |
| StateDictMerge.ReplaceOnce | verl/verl/model_merger/megatron_model_merger.py:404-412 | str.replace with one occurrence exchanges it and leaves the rest |
| StateDictMerge.ReplaceLeftmost | verl/verl/model_merger/megatron_model_merger.py:404-412 | in general it exchanges the leftmost occurrence and goes on behind it |
| StateDictMerge.KeysAreNames | verl/verl/model_merger/megatron_model_merger.py:358-418 | for any chunks the dictionary has the names of all entries at their layer numbers, and no other keys |
| StateDictMerge.LastWriteStays | verl/verl/model_merger/megatron_model_merger.py:404-412 | of several tensors that are written to one key the last one stays |
| StateDictMerge.CountIff | verl/verl/model_merger/megatron_model_merger.py:358-418 | the running layer count is the number of layers before a chunk exactly when each of those chunks has layers |
| StateDictMerge.NumberingIff | verl/verl/model_merger/megatron_model_merger.py:358-418 | a layer gets its global number, by the stages before, the chunks before and its local number, exactly when every chunk of the rank before it has layers |
| StateDictMerge.EmptyChunkCollides | verl/verl/model_merger/megatron_model_merger.py:358-418 | an input: behind a chunk with an embedding only, the only layer of the rank gets number 1, the key of the first layer of the next rank |
| StateDictMerge.LayerNumbersDistinct | verl/verl/model_merger/megatron_model_merger.py:358-385 | no two layers of any ranks and chunks have the same global number |
| StateDictMerge.LayerNumbersCover | verl/verl/model_merger/megatron_model_merger.py:358-385 | every number below the total is the global number of some layer |
| StateDictMerge.RanksApart | verl/verl/model_merger/megatron_model_merger.py:358-418 | when their chunks have layers, the state dicts of two ranks share no key of a layer |
| ShardedSave.SaveRank | verl/verl/model_merger/megatron_model_merger.py:422-459 | one file per layer of the rank below 30 layers in all and two from there on, numbered from the first layer of the rank on; file i holds exactly part i of the keys; every key is in exactly one file, with its tensor, and that is the file in the index |
| ShardedSave.FileShare | verl/verl/model_merger/megatron_model_merger.py:438-448 | each file has its even share of the keys, and the first ones one more |
| ShardedSave.MergedAt | verl/verl/model_merger/megatron_model_merger.py:465-467 | the merged index has the keys of all ranks, each as the last rank with that key recorded it |
| ShardedSave.OneFileIff | verl/verl/model_merger/megatron_model_merger.py:422-467 | over the files of all ranks, a key is in exactly one, the one of the weight map, exactly when one rank only has it |
| ShardedSave.SaveAllRanks | verl/verl/model_merger/megatron_model_merger.py:422-467 | the whole save: the weight map has exactly the keys of all ranks and names a file with the key and its tensor, which is the only one exactly when one rank only has the key |
| ShardedSave.SharedKeyNotInOneFile | verl/verl/model_merger/megatron_model_merger.py:422-467 | an input: a key on two ranks |
| ShardedSave.LayersInOneFile | verl/verl/model_merger/megatron_model_merger.py:358-467 | from the model chunks to the files: when every chunk has layers, each tensor of a layer is in exactly one file, the one of the weight map |
| ShardedSave.PartOfKey | verl/verl/model_merger/megatron_model_merger.py:441-442 | the parts of array_split cover the keys |
| ShardedSave.FileNumbersDistinct | verl/verl/model_merger/megatron_model_merger.py:431-455 | files of all ranks are numbered within 1..saves_total without collision |
| ShardedSave.FileNumbersCover | verl/verl/model_merger/megatron_model_merger.py:431-455 | and every number is used |
| ExpertStacking.ExpertKeyInjective | verl/scripts/veomni/moe_merge.py:95-98 | different layers, experts or projections have different keys |
| ExpertStacking.DecimalReadBack | verl/scripts/veomni/moe_merge.py:95-98 | a number in a key is printed with the digits that read back to it, without leading zeros |
| ExpertStacking.KeysDiffer | verl/scripts/veomni/moe_split.py:75-82 | no stacked key is an expert key |
| ExpertStacking.StackIndex | verl/scripts/veomni/moe_split.py:81-83 | row j of the stacked tensor is the tensor of expert j |
| ExpertStacking.MergeExperts | verl/scripts/veomni/moe_merge.py:95-110 | the stacking loop, or failure on a missing key or unequal shapes |
| ExpertStacking.SplitExperts | verl/scripts/veomni/moe_split.py:75-83 | the unstacking loop |
| ExpertStacking.MergeAllIff | verl/scripts/veomni/moe_merge.py:95-110 | the stacking loop succeeds exactly when every projection can be stacked beforehand |
| ExpertStacking.StackingSucceedsIff | verl/scripts/veomni/moe_merge.py:95-110 | with the keys written out: stacking succeeds exactly when there are experts and each has a weight of one shape for every projection of every stacked layer |
| ExpertStacking.StackedCheckpoint | verl/scripts/veomni/moe_merge.py:95-110 | with the keys written out: row j under model.layers.L.mlp.experts.P is what was under model.layers.L.mlp.experts.J.P.weight, which is gone, for P one of gate_proj, up_proj and down_proj; all other entries are as before |
| ExpertStacking.UnstackingSucceedsIff | verl/scripts/veomni/moe_split.py:75-83 | unstacking any dictionary succeeds exactly when every stacked tensor in it has a row for each expert |
| ExpertStacking.UnstackedCheckpoint | verl/scripts/veomni/moe_split.py:75-83 | with the keys written out, for any dictionary: every stacked tensor is gone, its row j is under the key of expert j, and all other entries are as before |
| ExpertStacking.StackingRoundTrip | verl/scripts/veomni/moe_split.py:75-83 | unstacking the stacked state dict restores it, for any layer and expert counts and any first expert layer |
| DataProto.Concat | verl/verl/protocol.py:917-961 | concatenation key by key, meta information and metrics, with its errors: an empty list, missing keys, conflicting meta information, a metric that the first dictionary lacks |
| DataProto.ConcatenatedIs | verl/verl/protocol.py:917-961 | for any parts that can be concatenated: under every key of the first the rows of all parts, one part after the other, and the meta information of all, which nowhere disagree |
| DataProto.ConflictIff | verl/verl/protocol.py:942-954 | the merge of the meta information fails exactly when two parts have different values under one key |
| DataProto.MergeMetrics | verl/verl/protocol.py:938-958 | the metrics of all parts, single dictionaries or lists, become one dictionary of lists, or nothing if there are none |
| DataProto.MetricsInOrder | verl/verl/protocol.py:944-951 | what each part adds, be it nothing, one dictionary or a list of them, comes after what the parts before it add |
| DataProto.NestedMetrics | verl/verl/protocol.py:938-958 | an input: a list of two dictionaries and a single one become one list of three values |
| DataProto.ListOfDictToDictOfList | verl/verl/utils/py_functional.py:359-368 | the lists per key, in order, or the failed assertion on a key that the first dictionary lacks |
| DataProto.AggregatedIff | verl/verl/protocol.py:938-958 | aggregating copies of some metrics gives back the same metrics exactly when there are none |
| DataProto.SegmentsRestore | verl/verl/protocol.py:917-961 | concatenating consecutive slices of some data restores everything but the metrics, which are aggregated; it restores all exactly when there are none |
| DataProto.PadToDivisor | verl/verl/protocol.py:74-99 | padding terminates with a length divisible by d, fewer than d added rows, and row i of every tensor and array equal to row i mod n; it fails exactly when rows are added and the metrics cannot be aggregated |
| DataProto.UnpadRestores | verl/verl/protocol.py:102-106 | unpadding restores the rows |
| DataProto.SplitPieces | verl/verl/protocol.py:905-914 | split(k) gives ceil(n / k) pieces, piece j with rows j * k to (j + 1) * k or to the end |
| DataProto.SplitConcat | verl/verl/protocol.py:905-914 | concat of split(k) restores the data, for any k > 0, exactly when there is a row and there are no metrics |
| DataProto.Chunk | verl/verl/protocol.py:864-903 | chunk(c) with automatic padding or without: it succeeds exactly when c divides the rows, or padding is on and the tensors have rows for every chunk; chunk i has the consecutive rows between two boundaries, the same for tensors and arrays |
| DataProto.PiecesIff | verl/verl/protocol.py:878-884 | cutting after every ceil(n / c) rows gives c pieces exactly when c - 1 of them can be full |
| DataProto.ChunkRows | verl/verl/protocol.py:878-895 | how many rows each chunk has, by either way of cutting |
| DataProto.FiveRowsInFourChunks | verl/verl/protocol.py:878-903 | an input: five rows of tensors in four chunks fail even with automatic padding |
| DataProto.ChunkConcat | verl/verl/protocol.py:864-903 | concat of chunk(c), even or uneven, restores the data exactly when it has no metrics |

## Left out

- Network, GPU and storage libraries (ZMQ, Ray, NCCL, RDMA, CUDA streams, safetensors): they appear as
  reliable ordered queues, byte-wise copies with a separate start and completion, and maps from names to
  tensors.
- The HCCL and Kimi engines, registries, configuration, device detection, finalisation and memory
  registration of all engines.
- Floating point arithmetic and element types: tensors are bytes or bit patterns with a shape and an item
  size; casts (`to(rollout_dtype)`, dtype promotion when a flush mixes types) are not modelled.
- Weights: weights are contiguous, as their flat view needs.
- NcclBroadcast, NixlChain, MooncakeChain: a receiver on which a view is refused or an assertion of the
  rebuilding fails stops taking part; in the model the ranks go on, and the failure is in what is rebuilt.
- DeltaWire.MaskedCopy: the source is floating point and has the shape of its target. For others the loader
  copies plainly, NaNs included.
- DeltaStream: the checksum of a flush and the returned metrics.
- DeltaSync: a first sparse sync of a parameter that was not seeded (its snapshot is uninitialised memory);
  the parameter set and the shard sizes are fixed after the seed.
- DeltaSync.EntryEffect: a converter is modelled as a rearrangement in which every output element is a copy
  of one shard element; converters that compute are not covered.
- DeltaLockstep.TrainerRank: mesh coordinates and placements are not computed; a rank's offset and whether
  it contributes are given, as `derive_placement` returns them, with shards that follow one another.
- DeltaRun.Run: the ranks run one after the other, and the rollout worker after them; a gather combines what
  the ranks pass to it, so no step of one rank depends on when another takes its own.
- NcclBroadcast: of a broadcast that is complete for rank 0 the bytes still on their way to a receiver are the
  bucket's; NCCL's own buffers between the receivers are not modelled.
- MooncakeChain: setting a slot and testing-and-clearing it are single steps.
- ActivationOffload: streams and events; the check of which tensors to offload; strides. A tensor is a
  storage key, a shape and its elements, and tensors of one group with equal keys have equal elements. The
  base class's handler that offloads each tensor when it is pushed is not modelled.
- ActivationOffload.AsyncDoubleBufferHandler.TensorPush: after a failed assertion the state is not
  specified; the same holds for the other operations of the class.
- StateDictMerge.MergeStateDicts: names are pairs of a layer number and the rest of the renamed key; the
  renaming rules, the skipped keys and the renaming of expert weights come before it. What `_split_tensors`
  returns is given (see QkvLayout).
- ShardedSave.SaveAllRanks: the JSON file around the weight map and the total size.
- QkvLayout: layer norms, row-parallel weights that are concatenated along dimension 1, and the value model.
- ExpertStacking: reading and writing the checkpoint files; a state dict is a map from key strings to
  tensors. MergeExperts is for configurations with `num_experts`.
- DataProto: data with unequal numbers of rows.
- DataProto.Chunk: tensors without any row, for which the number of pieces is up to the tensor library.
- Dataset preprocessing, trainers, rollout servers, the viewer, FLOPS formulas, chat templates and tool
  registration: input and output, plumbing or straight-line formulas.
