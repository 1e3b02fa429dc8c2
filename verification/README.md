# ncaf: the concurrency cores, modelled and proved

ncaf is an actor framework for C++. Messages to an actor go through a lock-free mailbox; an
actor that has messages is put on a scheduler whose thread pool is fed by a lock-free queue;
nodes of a cluster talk through message brokers. This project models the algorithms these
guarantees rest on and proves, for every interleaving, every number of threads and every run,
what the framework promises.

Concurrent code is modelled as a state machine with one atomic step per access to shared
memory, interleaved in any order (sequential consistency). Each machine has

- a `State`, with the source's variables and, marked as auxiliary, what the proofs keep in
  addition (positions, histories, owners),
- `Allowed` and `Apply`, the steps; `Possible` and `Exec`, the runs,
- an invariant `Inv`, a lemma that every step keeps it, and the theorems about reachable states,
- a class whose methods perform the same steps in place on the source's fields and are proved
  equal to the step functions.

Sequential code (the implicit producer's operations) is an imperative class over words,
arrays and blocks, with the source's loops.

| module | what it models |
|---|---|
| `Words`, `Remainders`, `Counting`, `Blocks`, `Optional` | shared vocabulary: 64-bit words, remainders, sums over threads, blocks |
| `FreeListProtocol`, `FreeListCalls` | the reference-counted lock-free free list; what its callers get |
| `DequeueCounters` | the optimistic and overcommit counters in front of the head index |
| `CircularIndex` | the circular block index as a ring of entries, with wrapping bases |
| `ImplicitProducer` | one implicit producer as a sequential queue, with bulk rollback |
| `BlockIndex` | the block index with consumers looking up while the producer inserts, rolls back and doubles |
| `BlockRecycling` | the life of a block under concurrent consumers |
| `ConcurrentProducer` | counters, index and blocks running together: the whole of one producer's queue |
| `LightweightSemaphore`, `SemaphoreCalls`, `BlockingQueue`, `BlockingQueueCalls` | two-level counting and the queue behind it; what their callers get |
| `Mailbox`, `MpscQueue`, `MpscCalls` | the mailbox queue, and its calls |
| `ChunkStack`, `ChunkStackCalls`, `NodePool`, `NodePoolCalls`, `NodeOwners` | its chunk stack, its node pool, their calls, and all queues over the one pool |
| `ActorProtocol`, `ActorDestruction`, `ActorProgress` | push, activation, draining and destruction of an actor; when its destruction can be relied on; that what was pushed gets executed |
| `Broker`, `BrokerCalls`, `BrokerProgress` | request and reply across nodes; that operations are what callers ordered, and complete |
| `RequestHandlers`, `Replying`, `ClusterStop` | the replying side, brokers and handlers together, the aligned stop |

The theorems are of three kinds. Safety says what holds in every reachable state. What callers
get is read off the events of a run, the arguments of its calls and the outcomes of its requests,
not off what the machine remembers of them. Progress says that calls come to their ends: a
measure that every access lowers, or a run that finishes the work.

Where machines depend on each other they are run together, and every joint run is proved to be
a run of each of them: `ConcurrentProducer` puts `DequeueCounters`, `BlockIndex` and
`BlockRecycling` together, `Replying` puts `RequestHandlers` on `Broker`, `NodeOwners` the queues
on `NodePool`, and `BlockingQueue` runs the very machine of `LightweightSemaphore`. The rest
composes by contract: a block on loan to one taker rests on `FreeListProtocol`, `NodePool` pushes
and pops chunks atomically because `ChunkStack` shows it may, and `ActorProtocol` uses the
abstract mailbox that `MpscQueue` refines.

Two things one might expect do not hold as they stand, and for both the exact condition is
proved. The wait of `AsyncDestroy` need not end with the instance reset: for the first call,
made while some other thread is free to run tasks, it does so under every schedule if and only if
no push is under way at the call (`CompleteIffNoPush`). A chunk cut from a page has exactly the
thread-local capacity, a recycled chunk has it if and only if its thread has handed out as many
nodes as it drew from the stack since it last gave its list away (`RecycledChunkLength`).

## Model

| member | source | states |
|---|---|---|
| FreeListProtocol.ReferenceCounts | include/ncaf/3rd_lib/moody_camel_queue/concurrentqueue.h:1528-1605 | in every reachable state the low bits of a node's word are its list or publish share plus the getters holding it, the flag bit says that its add is deferred or under way, and the count never runs into the flag |
| FreeListProtocol.UnlinkInstallsSuccessor | include/ncaf/3rd_lib/moody_camel_queue/concurrentqueue.h:1555-1565 | the `next` a getter read stays the true successor until its compare-and-swap, which removes exactly the first node |
| FreeListProtocol.TakenIsUnflagged | include/ncaf/3rd_lib/moody_camel_queue/concurrentqueue.h:1559-1565 | the assertion after unlinking holds, and the two references given back are there |
| FreeListProtocol.OneAdderPerNode | include/ncaf/3rd_lib/moody_camel_queue/concurrentqueue.h:1571-1574 | at most one thread at a time re-adds a given node |
| FreeListProtocol.OwnedUntilAdded | include/ncaf/3rd_lib/moody_camel_queue/concurrentqueue.h:1528-1539 | a node handed out stays its taker's through any run without an add of it |
| FreeListProtocol.HandedOutOnce | include/ncaf/3rd_lib/moody_camel_queue/concurrentqueue.h:1541-1578 | between two hand-outs of a node every run has an add of it |
| FreeListProtocol.NothingLost | include/ncaf/3rd_lib/moody_camel_queue/concurrentqueue.h:1593-1604 | with no call open every node is on the list once with count one, or its owner's with count zero |
| FreeListCalls.EmptyGetSawEmpty | include/ncaf/3rd_lib/moody_camel_queue/concurrentqueue.h:1541-1577 | in every run a get that comes back without a node saw an empty list at its own last read of the head |
| FreeListCalls.LoneGet | include/ncaf/3rd_lib/moody_camel_queue/concurrentqueue.h:1541-1577 | undisturbed, a get on a list that is not empty comes back with its first node and leaves exactly the rest, in six accesses |
| FreeListCalls.LoneGetOnEmpty | include/ncaf/3rd_lib/moody_camel_queue/concurrentqueue.h:1541-1577 | undisturbed, a get on an empty list comes back after one access with nothing changed |
| FreeListCalls.LoneAdd | include/ncaf/3rd_lib/moody_camel_queue/concurrentqueue.h:1528-1605 | undisturbed, an add puts exactly its node in front of the list, in five accesses |
| FreeListProtocol.ApplyKeepsInv | include/ncaf/3rd_lib/moody_camel_queue/concurrentqueue.h:1528-1605 | every step of any interleaving of adds and gets keeps the list, the counts and the ownership consistent |
| FreeListProtocol.FreeList.Add | include/ncaf/3rd_lib/moody_camel_queue/concurrentqueue.h:1528-1539 | starts an add in place, as the machine does |
| FreeListProtocol.FreeList.TryGet | include/ncaf/3rd_lib/moody_camel_queue/concurrentqueue.h:1541-1546 | starts a get in place, as the machine does |
| FreeListProtocol.FreeList.ResumeAdding | include/ncaf/3rd_lib/moody_camel_queue/concurrentqueue.h:1584-1605 | the next access of the re-adding loop, proved equal to the machine's step |
| FreeListProtocol.FreeList.ResumeTryGet | include/ncaf/3rd_lib/moody_camel_queue/concurrentqueue.h:1546-1577 | the next access of a get, proved equal to the machine's step |
| FreeListProtocol.FreeList.Resume | include/ncaf/3rd_lib/moody_camel_queue/concurrentqueue.h:1528-1605 | the next access of any thread, keeping the invariant |
| Words.CircularIsTrueOrder | include/ncaf/3rd_lib/moody_camel_queue/concurrentqueue.h:560-568 | on words whose numbers are at most half a turn apart the circular comparison is the true one |
| Words.CircularFailsOutside | include/ncaf/3rd_lib/moody_camel_queue/concurrentqueue.h:560-568 | beyond half a turn it is the opposite of the true one, including exactly half a turn behind |
| DequeueCounters.SingleTestIsBulkTest | include/ncaf/3rd_lib/moody_camel_queue/concurrentqueue.h:2640-2651 | the tests of the single and of the bulk dequeue agree on all words, so a single dequeue is a bulk one of at most one |
| DequeueCounters.WinnersStayBelowTail | include/ncaf/3rd_lib/moody_camel_queue/concurrentqueue.h:2888-2899 | an overcommit value read before the increment, however stale, never lets an increment win a slot at or above the tail |
| DequeueCounters.WonBound | include/ncaf/3rd_lib/moody_camel_queue/concurrentqueue.h:2888-2899 | the increments that won, counted up to any point, are at most the tail |
| DequeueCounters.HeadNeverPassesTail | include/ncaf/3rd_lib/moody_camel_queue/concurrentqueue.h:2640-2705 | in every reachable state the head plus everything consumers are still entitled to is at most the tail |
| DequeueCounters.ClaimsAreDistinct | include/ncaf/3rd_lib/moody_camel_queue/concurrentqueue.h:2896-2899 | a claimed slot was published and no other consumer has claimed it |
| DequeueCounters.ClaimsAreConsecutive | include/ncaf/3rd_lib/moody_camel_queue/concurrentqueue.h:2896-2899 | a claim starts where all earlier claims end, and takes exactly what it is entitled to |
| DequeueCounters.ClaimsTile | include/ncaf/3rd_lib/moody_camel_queue/concurrentqueue.h:2896-2899 | over any run the claims, in order, cover the slots by which the head moves, each once, and every slot belongs to its claimant |
| DequeueCounters.ClaimsAreWithin | include/ncaf/3rd_lib/moody_camel_queue/concurrentqueue.h:2876-2899 | in every run a claim has at least one slot and at most as many as its dequeue was called for |
| DequeueCounters.QuiescentCounters | include/ncaf/3rd_lib/moody_camel_queue/concurrentqueue.h:2699-2700 | with no dequeue in progress the two counters differ by exactly the head |
| DequeueCounters.CountersAccountForFlights | include/ncaf/3rd_lib/moody_camel_queue/concurrentqueue.h:2876-2981 | at any time they differ from the head by the increments in flight |
| DequeueCounters.SoloDequeueIsExact | include/ncaf/3rd_lib/moody_camel_queue/concurrentqueue.h:2876-2899 | from the call on, a dequeue that runs alone takes the smaller of what it was called for and what is there, and fails only on an empty queue |
| DequeueCounters.StepKeepsInv | include/ncaf/3rd_lib/moody_camel_queue/concurrentqueue.h:2640-2705 | every access of every consumer, and every publication, keeps the counters' invariant |
| DequeueCounters.Counters.ResumeLoads | include/ncaf/3rd_lib/moody_camel_queue/concurrentqueue.h:2878-2883 | the loads and the first test, on wrapping words, are the machine's on unbounded numbers |
| DequeueCounters.Counters.ResumeCounts | include/ncaf/3rd_lib/moody_camel_queue/concurrentqueue.h:2886-2894 | so are the optimistic increment, the second test and the overcommit |
| DequeueCounters.Counters.ResumeClaim | include/ncaf/3rd_lib/moody_camel_queue/concurrentqueue.h:2896-2899 | the fetch-and-add on the head returns slots below the tail |
| CircularIndex.BlockBaseDiffCounts | include/ncaf/3rd_lib/moody_camel_queue/concurrentqueue.h:2728-2731 | `blockBaseDiff` is the block size times the number of block starts among the new slots, also when the start index minus one wraps |
| CircularIndex.LookupFinds | include/ncaf/3rd_lib/moody_camel_queue/concurrentqueue.h:3038-3061 | from a tail in front of or behind it the look-up finds the place of the slot's block, through wrapped words and the signed division |
| CircularIndex.InsertKeeps | include/ncaf/3rd_lib/moody_camel_queue/concurrentqueue.h:3001-3013 | an insertion behind the tail keeps every block under its own base |
| CircularIndex.VacantUnlessFull | include/ncaf/3rd_lib/moody_camel_queue/concurrentqueue.h:3006-3009 | the vacancy test succeeds exactly while the ring is not full |
| CircularIndex.GrowKeeps | include/ncaf/3rd_lib/moody_camel_queue/concurrentqueue.h:3063-3112 | doubling the ring keeps every block under its base and leaves the new half vacant |
| CircularIndex.GrownTailIsNew | include/ncaf/3rd_lib/moody_camel_queue/concurrentqueue.h:3024 | the assertion after growing holds: the entry behind the tail is a new one |
| CircularIndex.TailMoves | include/ncaf/3rd_lib/moody_camel_queue/concurrentqueue.h:3031-3036 | rewinding and inserting move the tail by one number, through the masked wrap |
| CircularIndex.DropStart | include/ncaf/3rd_lib/moody_camel_queue/concurrentqueue.h:2686-2694 | the entry of a returned block is the vacant one for the number one ring further |
| ImplicitProducer.Producer.constructor | include/ncaf/3rd_lib/moody_camel_queue/concurrentqueue.h:2515-2518 | a new producer is an empty queue whose index exists unless its allocation failed |
| ImplicitProducer.Producer.NewBlockIndex | include/ncaf/3rd_lib/moody_camel_queue/concurrentqueue.h:3063-3112 | the copy loop builds exactly the old ring from behind its tail followed by new entries, or changes nothing |
| ImplicitProducer.Producer.InsertBlockIndexEntry | include/ncaf/3rd_lib/moody_camel_queue/concurrentqueue.h:3001-3029 | enters the base behind the tail of the present ring or of the next generation, or fails without a trace |
| ImplicitProducer.Producer.GetBlockIndexEntryForIndex | include/ncaf/3rd_lib/moody_camel_queue/concurrentqueue.h:3038-3061 | computes the place that `LookupFinds` is about |
| ImplicitProducer.Producer.RequisitionBlock | include/ncaf/3rd_lib/moody_camel_queue/concurrentqueue.h:3185-3202 | a block of the pool, or a new one, or nothing when there is neither |
| ImplicitProducer.Producer.AcquireBlock | include/ncaf/3rd_lib/moody_camel_queue/concurrentqueue.h:2582-2620 | one allocated block in index and hand, or everything as before; it fails only for lack of memory or in a full queue |
| ImplicitProducer.Producer.Enqueue | include/ncaf/3rd_lib/moody_camel_queue/concurrentqueue.h:2575-2638 | appends exactly the item, or leaves items, blocks, pool and tail block alone |
| ImplicitProducer.Producer.AllocateBlocks | include/ncaf/3rd_lib/moody_camel_queue/concurrentqueue.h:2728-2791 | the allocation loop ends with one chained block per block start among the new slots |
| ImplicitProducer.Producer.RollBack | include/ncaf/3rd_lib/moody_camel_queue/concurrentqueue.h:2751-2768 | restores the structure and puts exactly the call's blocks into the pool |
| ImplicitProducer.Producer.WriteItems | include/ncaf/3rd_lib/moody_camel_queue/concurrentqueue.h:2793-2868 | writes every item into its slot along the chain and ends at the end block, as the assertion there says |
| ImplicitProducer.Producer.EnqueueBulk | include/ncaf/3rd_lib/moody_camel_queue/concurrentqueue.h:2712-2870 | all items in order or none; on failure index, items and tail block are as before and every block not in use is in the pool; with enough memory it succeeds |
| ImplicitProducer.RollbackKeeps | include/ncaf/3rd_lib/moody_camel_queue/concurrentqueue.h:2751-2768 | with entries cleared, tail moved back and blocks returned the abstract queue is unchanged |
| ImplicitProducer.RollFinds | include/ncaf/3rd_lib/moody_camel_queue/concurrentqueue.h:2758-2763 | the rollback's look-ups hit their entries although the tail has already moved back below them |
| ImplicitProducer.FullTest | include/ncaf/3rd_lib/moody_camel_queue/concurrentqueue.h:2583-2587 | the full test on words is true exactly when the new block would end half a turn or more behind the head |
| ImplicitProducer.Producer.Dequeue | include/ncaf/3rd_lib/moody_camel_queue/concurrentqueue.h:2640-2705 | removes and returns the first item, or reports an empty queue |
| ImplicitProducer.Producer.TakeFromBlock | include/ncaf/3rd_lib/moody_camel_queue/concurrentqueue.h:2903-2971 | moves items out of the first block in order and returns the block when its last slot is consumed |
| ImplicitProducer.Producer.DequeueBulk | include/ncaf/3rd_lib/moody_camel_queue/concurrentqueue.h:2876-2981 | removes the first `min(max, length)` items, in order, across blocks and the wrap of the ring |
| BlockIndex.LookupsFindTheirBlock | include/ncaf/3rd_lib/moody_camel_queue/concurrentqueue.h:3038-3061 | whatever is inserted, rolled back or doubled between its loads, a consumer ends at the entry with its own base and block |
| BlockIndex.LookupIsExact | include/ncaf/3rd_lib/moody_camel_queue/concurrentqueue.h:3044-3061 | the place computed from an old generation and an old tail is the place of the block in that generation |
| BlockIndex.LookupsNeverFail | include/ncaf/3rd_lib/moody_camel_queue/concurrentqueue.h:3044-3061 | no index, entry or block a look-up needs is ever missing |
| BlockIndex.EntriesAreDistinct | include/ncaf/3rd_lib/moody_camel_queue/concurrentqueue.h:3001-3029 | two numbers that count have different entries in every generation |
| BlockIndex.RollbackRestores | include/ncaf/3rd_lib/moody_camel_queue/concurrentqueue.h:2757-2763 | a rollback ends with the tail at the last published block and no block behind it |
| BlockIndex.ApplyKeepsInv | include/ncaf/3rd_lib/moody_camel_queue/concurrentqueue.h:3001-3112 | every step of the producer and of every consumer keeps the index exact for all blocks in use |
| BlockIndex.Reader.Step | include/ncaf/3rd_lib/moody_camel_queue/concurrentqueue.h:3044-3061 | the next access of a look-up in place, possible whenever the invariant holds |
| BlockIndex.Reader.ClearEntry | include/ncaf/3rd_lib/moody_camel_queue/concurrentqueue.h:2959-2971 | clearing the entry of a completed block, and going on to the next place of the same ring |
| BlockRecycling.ConsumersGetTheirSlots | include/ncaf/3rd_lib/moody_camel_queue/concurrentqueue.h:2899-2973 | a consumer comes back with exactly the items enqueued in the slots it claimed, in order |
| BlockRecycling.PublishedIsAccepted | include/ncaf/3rd_lib/moody_camel_queue/concurrentqueue.h:2712-2870 | over every run what is published is, call after call, the items that callers passed to the enqueues that succeeded, read off the events |
| BlockRecycling.ConsumersGetWhatWasAsked | include/ncaf/3rd_lib/moody_camel_queue/concurrentqueue.h:2712-2973 | so a consumer comes back with a slice of what callers passed, the one at the slots it claimed |
| BlockRecycling.FailsOnlyIfDenied | include/ncaf/3rd_lib/moody_camel_queue/concurrentqueue.h:2751-2768 | an enqueue turns to its rollback only when it needs a block and is denied one |
| BlockRecycling.EveryCallEnds | include/ncaf/3rd_lib/moody_camel_queue/concurrentqueue.h:2712-2870 | every step of the producer, whatever it is given, is possible and brings the end of its call closer |
| BlockRecycling.EveryDequeueEnds | include/ncaf/3rd_lib/moody_camel_queue/concurrentqueue.h:2899-2973 | every step of a consumer is possible and brings it closer to having its items |
| BlockRecycling.NoThreadIsStuck | include/ncaf/3rd_lib/moody_camel_queue/concurrentqueue.h:2903-2971 | nobody ever finds a null entry, a missing chain pointer or an unconstructed element |
| BlockRecycling.ReleaserIsAlone | include/ncaf/3rd_lib/moody_camel_queue/concurrentqueue.h:2959-2970 | the consumer about to return a block is the only thread at it, and all its slots have been consumed |
| BlockRecycling.ReleasedBlockUntouched | include/ncaf/3rd_lib/moody_camel_queue/concurrentqueue.h:2717-2724 | a block in the pool or in other hands is touched neither by the producer through a stale tail block nor by a slow consumer |
| BlockRecycling.ReleasedExactlyOnce | include/ncaf/3rd_lib/moody_camel_queue/concurrentqueue.h:1664-1700 | in every run each block number is returned at most once, and once when returned |
| BlockRecycling.CountIsExact | include/ncaf/3rd_lib/moody_camel_queue/concurrentqueue.h:1684-1700 | the counter is the number of consumed slots, never above the block size, and reaches it only below the head |
| BlockRecycling.NoBlockLeaks | include/ncaf/3rd_lib/moody_camel_queue/concurrentqueue.h:3164-3202 | with nobody at work a block of the producer has an unconsumed slot; on an empty queue only the one with room remains |
| BlockRecycling.RollbackRestores | include/ncaf/3rd_lib/moody_camel_queue/concurrentqueue.h:2751-2768 | a failed enqueue among running consumers restores index and tail block and returns all its blocks |
| BlockRecycling.EnqueuePublishesAll | include/ncaf/3rd_lib/moody_camel_queue/concurrentqueue.h:2862-2869 | a successful one appends exactly its items, all written, and the assertion behind the write loop holds |
| BlockRecycling.AdvanceIsSafe | include/ncaf/3rd_lib/moody_camel_queue/concurrentqueue.h:2793-2866 | at a block boundary the chain leads to the block of the next slot |
| BlockRecycling.ApplyKeepsInv | include/ncaf/3rd_lib/moody_camel_queue/concurrentqueue.h:2575-2981 | every step of the producer, of every consumer and of the other users of the pool keeps ownership, counts and contents |
| BlockRecycling.Structure.SetManyEmpty | include/ncaf/3rd_lib/moody_camel_queue/concurrentqueue.h:1684-1707 | adds to the counter and says whether the block is complete |
| BlockRecycling.Structure.TakeFromBlock | include/ncaf/3rd_lib/moody_camel_queue/concurrentqueue.h:2917-2961 | moving one element, or counting the slots, in place |
| BlockRecycling.Structure.ReleaseBlock | include/ncaf/3rd_lib/moody_camel_queue/concurrentqueue.h:2959-2970 | clearing the entry, then returning the block, in place |
| BlockRecycling.Structure.RunConsumer | include/ncaf/3rd_lib/moody_camel_queue/concurrentqueue.h:2899-2973 | the next access of a consumer, possible in every reachable state |
| BlockRecycling.Structure.RunProducer | include/ncaf/3rd_lib/moody_camel_queue/concurrentqueue.h:2712-2870 | the next access of the producer, keeping the invariant |
| ConcurrentProducer.MachinesRun | include/ncaf/3rd_lib/moody_camel_queue/concurrentqueue.h:2575-3112 | every run of the code is at once a run of the counters, of the index and of the blocks |
| ConcurrentProducer.PartsAgree | include/ncaf/3rd_lib/moody_camel_queue/concurrentqueue.h:2575-3112 | what each of the three machines asks of the others is there at every step, and the block the index leads a consumer to is the one of its slots |
| ConcurrentProducer.DequeuesGetTheirSlots | include/ncaf/3rd_lib/moody_camel_queue/concurrentqueue.h:2640-2705 | in every run a dequeue comes back with exactly the items that callers of successful enqueues passed for the slots the head counter gave it, in order, at least one and at most as many as it was called for, with nothing assumed about claims and look-ups |
| ConcurrentProducer.PublishedIsOffered | include/ncaf/3rd_lib/moody_camel_queue/concurrentqueue.h:2575-2870 | in every run of the whole producer what is published is what the callers of successful enqueues passed, call after call |
| ConcurrentProducer.FailsOnlyIfDenied | include/ncaf/3rd_lib/moody_camel_queue/concurrentqueue.h:2582-2620 | an enqueue is rolled back only because a block, or the memory of a bigger index, was refused |
| ConcurrentProducer.EntryGivenUpOnlyIfDenied | include/ncaf/3rd_lib/moody_camel_queue/concurrentqueue.h:2600-2612 | an entry made in the index is taken back only if there is no block for it |
| ConcurrentProducer.EveryEnqueueEnds | include/ncaf/3rd_lib/moody_camel_queue/concurrentqueue.h:2575-2870 | every access of the producer brings its enqueue closer to its end, whatever the consumers do |
| ConcurrentProducer.EveryDequeueEnds | include/ncaf/3rd_lib/moody_camel_queue/concurrentqueue.h:2640-2981 | every access of a dequeue brings it closer to its claim, and after it closer to having its items |
| ConcurrentProducer.DequeuesTile | include/ncaf/3rd_lib/moody_camel_queue/concurrentqueue.h:2876-2981 | the claims of a run cover the slots up to the head, each once: no item is lost or delivered twice |
| LightweightSemaphore.PermitsConserved | include/ncaf/3rd_lib/moody_camel_queue/lightweightsemaphore.h:232-344 | in any run waiters are permits posted or promised plus the negative count, and acquired plus available is initial plus signalled |
| LightweightSemaphore.WaiterCanFinish | include/ncaf/3rd_lib/moody_camel_queue/lightweightsemaphore.h:253-259 | a timed-out waiter has a permit on its way or a count to give back, so its loop can end |
| LightweightSemaphore.ReleaseIsBounded | include/ncaf/3rd_lib/moody_camel_queue/lightweightsemaphore.h:337-344 | a signal posts at most one permit per waiter |
| LightweightSemaphore.QuiescentCountIsExact | include/ncaf/3rd_lib/moody_camel_queue/lightweightsemaphore.h:298-344 | with no call open no permit is in the operating-system semaphore and the count is initial plus signalled minus acquired |
| LightweightSemaphore.ActReportsAcquired | include/ncaf/3rd_lib/moody_camel_queue/lightweightsemaphore.h:262-329 | every permit acquired is reported by the call that acquired it |
| SemaphoreCalls.ReturnsWithin | include/ncaf/3rd_lib/moody_camel_queue/lightweightsemaphore.h:262-329 | in every run a call returns at most the maximum it was called with, and a wait that may wait returns nothing only if the operating system's wait failed or timed out |
| SemaphoreCalls.TakesGreedily | include/ncaf/3rd_lib/moody_camel_queue/lightweightsemaphore.h:262-321 | a `tryWaitMany` or spinning wait that takes from the count takes the smaller of its maximum and the count, and one that gives up saw a count that was not positive |
| SemaphoreCalls.WaitTakesOne | include/ncaf/3rd_lib/moody_camel_queue/lightweightsemaphore.h:242-284 | behind the spinning a wait gets one permit at a time, then tries for the rest, and comes back empty only by giving its count back |
| SemaphoreCalls.LoneTryWait | include/ncaf/3rd_lib/moody_camel_queue/lightweightsemaphore.h:298-309 | undisturbed, `tryWaitMany` returns the smaller of its maximum and the count, and leaves the rest |
| SemaphoreCalls.SignalAdds | include/ncaf/3rd_lib/moody_camel_queue/lightweightsemaphore.h:337-344 | a signal raises the count by what it was called with, and posts exactly when there are waiters |
| SemaphoreCalls.AttemptsEnd | include/ncaf/3rd_lib/moody_camel_queue/lightweightsemaphore.h:262-321 | undisturbed, the try and the spinning end, with permits or with the real wait |
| SemaphoreCalls.WaiterTakesPost | include/ncaf/3rd_lib/moody_camel_queue/lightweightsemaphore.h:242-249 | a permit that was posted ends the wait of whoever takes it |
| SemaphoreCalls.LoneRetry | include/ncaf/3rd_lib/moody_camel_queue/lightweightsemaphore.h:253-259 | a wait that has given up is over in two accesses: its count given back, or the permit taken that was meant for it |
| SemaphoreCalls.SignalPosts | include/ncaf/3rd_lib/moody_camel_queue/lightweightsemaphore.h:337-344 | a signal posts all the permits it has promised, and returns |
| LightweightSemaphore.ApplyKeepsInv | include/ncaf/3rd_lib/moody_camel_queue/lightweightsemaphore.h:232-344 | every access keeps both conservation laws |
| LightweightSemaphore.Semaphore.ResumeTry | include/ncaf/3rd_lib/moody_camel_queue/lightweightsemaphore.h:298-321 | an access of the try and spin loops in place |
| LightweightSemaphore.Semaphore.ResumeWait | include/ncaf/3rd_lib/moody_camel_queue/lightweightsemaphore.h:242-259 | an access of a wait after its spinning, time-outs included |
| LightweightSemaphore.Semaphore.ResumeSignal | include/ncaf/3rd_lib/moody_camel_queue/lightweightsemaphore.h:337-344 | an access of a signal in place |
| BlockingQueue.ItemsAccounted | include/ncaf/3rd_lib/moody_camel_queue/blockingconcurrentqueue.h:120-139 | the queue's items are the free permits, those in threads' hands and the items not signalled yet |
| BlockingQueueCalls.DeliversWithin | include/ncaf/3rd_lib/moody_camel_queue/blockingconcurrentqueue.h:278-362 | in every run a dequeue delivers at most what it was called for, what it still owes itself included, and delivers nothing only if it was not to wait or waiting failed |
| BlockingQueueCalls.ItemsAreEnqueued | include/ncaf/3rd_lib/moody_camel_queue/blockingconcurrentqueue.h:120-139 | the length of the queue is what successful enqueues were called with, less what dequeues have delivered |
| BlockingQueue.PermitImpliesElement | include/ncaf/3rd_lib/moody_camel_queue/blockingconcurrentqueue.h:278-316 | there is an item for every free permit and for every thread past the semaphore |
| BlockingQueue.RetryLoopCanFinish | include/ncaf/3rd_lib/moody_camel_queue/blockingconcurrentqueue.h:354-362 | a retry loop always has its items in the queue |
| BlockingQueue.QuiescentCountIsLength | include/ncaf/3rd_lib/moody_camel_queue/blockingconcurrentqueue.h:278-316 | with nobody inside a call the semaphore's count is the length of the queue |
| BlockingQueue.ApplyKeepsInv | include/ncaf/3rd_lib/moody_camel_queue/blockingconcurrentqueue.h:120-362 | every step of the composition keeps the balance of items and permits |
| BlockingQueue.Queue.EnqueueInner | include/ncaf/3rd_lib/moody_camel_queue/blockingconcurrentqueue.h:133-139 | the enqueue in front of the signal |
| BlockingQueue.Queue.DequeueInner | include/ncaf/3rd_lib/moody_camel_queue/blockingconcurrentqueue.h:309-316 | one round of the retry loop behind the semaphore |
| MpscQueue.RefinesMailbox | include/ncaf/3rd_lib/daking/MPSC_queue.h:397-456 | the queue is linearizable: the exchange orders, the link store makes reachable, the advance pops; every other access is invisible |
| MpscQueue.LoadFailsIffCannotPop | include/ncaf/3rd_lib/daking/MPSC_queue.h:467-480 | a dequeue fails exactly when the abstract mailbox has nothing to pop |
| MpscQueue.MissingLinkHasOneProducer | include/ncaf/3rd_lib/daking/MPSC_queue.h:402-403 | a missing link belongs to exactly one producer, about to store it between the right nodes |
| MpscQueue.FailureMeansEmpty | include/ncaf/3rd_lib/daking/MPSC_queue.h:467-480 | with no producer between exchange and link a dequeue fails only on an empty queue |
| MpscQueue.FreedNodeIsUnreferenced | include/ncaf/3rd_lib/daking/MPSC_queue.h:472-475 | the old dummy can be recycled: no producer will write to it and no position uses it |
| MpscQueue.FifoFromStart | include/ncaf/3rd_lib/daking/MPSC_queue.h:397-480 | over every run the dequeued values are a prefix of the enqueued ones in exchange order |
| MpscCalls.FifoOfCalls | include/ncaf/3rd_lib/daking/MPSC_queue.h:397-480 | over every run the dequeued values are a prefix of what the enqueues were called with, call after call in exchange order |
| MpscCalls.LoneDequeue | include/ncaf/3rd_lib/daking/MPSC_queue.h:467-480 | undisturbed, with the first waiting entry linked, a dequeue delivers exactly its value and the queue goes on with the rest |
| MpscCalls.EveryEnqueueEnds | include/ncaf/3rd_lib/daking/MPSC_queue.h:397-456 | every access of an enqueue is possible and brings its end closer |
| MpscQueue.EnqueueBringsAtLeastOne | include/ncaf/3rd_lib/daking/MPSC_queue.h:413-452 | an enqueue brings exactly the first `n` values of its source, or the first one if `n` is zero, in order and next to each other |
| MpscQueue.ApplyKeepsInv | include/ncaf/3rd_lib/daking/MPSC_queue.h:397-480 | every access keeps the queue well linked while pool nodes are overwritten at will |
| MpscQueue.Queue.ExchangeHead | include/ncaf/3rd_lib/daking/MPSC_queue.h:402 | the exchange of the head in place |
| MpscQueue.Queue.LinkOldHead | include/ncaf/3rd_lib/daking/MPSC_queue.h:403 | the store of the link in place |
| MpscQueue.Queue.MoveValueOut | include/ncaf/3rd_lib/daking/MPSC_queue.h:472-474 | moving the value out in place |
| MpscQueue.Queue.ReleaseDummy | include/ncaf/3rd_lib/daking/MPSC_queue.h:475 | the exchange of the tail and the recycling of the old dummy |
| ChunkStack.CasRefinesStack | include/ncaf/3rd_lib/daking/MPSC_queue.h:158-188 | no ABA: a successful compare-and-swap pushes onto the stack it was prepared for or installs the true successor, whatever garbage was read |
| ChunkStack.OnlyCasChangesStack | include/ncaf/3rd_lib/daking/MPSC_queue.h:158-188 | nothing else changes stack, top or tag |
| ChunkStackCalls.StackIsOfCalls | include/ncaf/3rd_lib/daking/MPSC_queue.h:158-188 | over every run the stack is that of a sequential stack given the chunks of the calls |
| ChunkStackCalls.LonePush | include/ncaf/3rd_lib/daking/MPSC_queue.h:158-169 | undisturbed, a push puts its chunk on top with the old top as its successor |
| ChunkStackCalls.LonePop | include/ncaf/3rd_lib/daking/MPSC_queue.h:171-188 | undisturbed, a pop comes back with the top chunk, or finds the stack empty |
| ChunkStack.EmptyPopSawEmptyStack | include/ncaf/3rd_lib/daking/MPSC_queue.h:171-176 | a pop that reports an empty stack saw one |
| ChunkStack.NoChunkTwice | include/ncaf/3rd_lib/daking/MPSC_queue.h:158-169 | a chunk is on the stack at most once |
| ChunkStack.TagCountsSwaps | include/ncaf/3rd_lib/daking/MPSC_queue.h:158-188 | the tag counts the successful swaps, so equal tags mean the same stack |
| ChunkStack.ThreadRunnable | include/ncaf/3rd_lib/daking/MPSC_queue.h:158-188 | every thread can take its next step, whatever garbage it has read: no node it dereferences is missing |
| ChunkStack.Stack.ResumePush | include/ncaf/3rd_lib/daking/MPSC_queue.h:158-169 | the next access of a push in place |
| ChunkStack.Stack.ResumePop | include/ncaf/3rd_lib/daking/MPSC_queue.h:171-188 | the next access of a pop in place |
| NodePool.PlacesAreExact | include/ncaf/3rd_lib/daking/MPSC_queue.h:588-608 | the nodes are partitioned: a node is in exactly one place of one chunk or cache, in use, given up, or in a page being split |
| NodePool.ChunksTerminate | include/ncaf/3rd_lib/daking/MPSC_queue.h:264-283 | every chunk is non-empty, without cycle, and ends in a null link |
| NodePool.CachesTerminate | include/ncaf/3rd_lib/daking/MPSC_queue.h:588-608 | so does every thread's list, and its counter stays below the capacity |
| NodePool.PagesSplitExactly | include/ncaf/3rd_lib/daking/MPSC_queue.h:264-283 | a page is used up by whole chunks, no link points past it, and the node count is a multiple of the capacity |
| NodePool.PageChunksAreExact | include/ncaf/3rd_lib/daking/MPSC_queue.h:271-279 | a chunk from a page has exactly the capacity |
| NodePool.AllocateHandsOutFree | include/ncaf/3rd_lib/daking/MPSC_queue.h:588-598 | an allocated node was nobody's, and comes with a null link |
| NodePoolCalls.AllocationEnds | include/ncaf/3rd_lib/daking/MPSC_queue.h:588-598 | undisturbed, an allocation ends with a node in use that was not: from the list, a chunk, or a new page |
| NodePoolCalls.LockReserves | include/ncaf/3rd_lib/daking/MPSC_queue.h:610-633 | with the mutex a thread reserves at least a chunk and as much as there is, or exactly the chunks that are missing |
| NodePoolCalls.SplitProceeds | include/ncaf/3rd_lib/daking/MPSC_queue.h:264-283 | each turn of the split handles one node, and behind the last the whole page is counted and the mutex given back |
| NodePoolCalls.ReservationEnds | include/ncaf/3rd_lib/daking/MPSC_queue.h:610-633 | undisturbed, a reservation ends with at least the chunks it was called for |
| NodePool.RecycledChunkLength | include/ncaf/3rd_lib/daking/MPSC_queue.h:588-608 | in every run a recycled chunk has the capacity plus what its thread has drawn from the stack and not handed out since it last gave its list away, so it has exactly the capacity if and only if these are equal |
| NodePool.RecycledChunkCanBeShort | include/ncaf/3rd_lib/daking/MPSC_queue.h:600-608 | a run in which a recycled chunk has fewer nodes than the capacity |
| NodePool.ApplyKeepsInv | include/ncaf/3rd_lib/daking/MPSC_queue.h:588-633 | every step, the end of a thread and the loss of a dummy included, keeps the partition |
| NodePool.Manager.TryPop | include/ncaf/3rd_lib/daking/MPSC_queue.h:588-593 | refilling an empty list in place |
| NodePool.Manager.TakeNode | include/ncaf/3rd_lib/daking/MPSC_queue.h:594-597 | handing out the first node of the list in place |
| NodePool.Manager.Return | include/ncaf/3rd_lib/daking/MPSC_queue.h:600-608 | a deallocation in place, with the push of the whole list |
| NodePool.Manager.SplitPage | include/ncaf/3rd_lib/daking/MPSC_queue.h:271-282 | one turn of the loop of `Reserve` in place |
| NodeOwners.OneOwner | include/ncaf/3rd_lib/daking/MPSC_queue.h:372-480 | in every run of any number of queues and threads over the pool a node outside the pool is at exactly one position of exactly one thread's hand or one live queue |
| NodeOwners.PoolIsRun | include/ncaf/3rd_lib/daking/MPSC_queue.h:588-633 | every run of the queues is, for the pool, one of its runs |
| ActorProtocol.NoMessageStranded | include/ncaf/internal/actor.h:218-245 | with a live instance, a waiting message and no activation some thread is on its way to `TryActivate` |
| ActorProtocol.QuiescentMailboxEmpty | include/ncaf/internal/actor.h:268-285 | once all threads are quiet and nothing is scheduled the mailbox is empty and the count zero |
| ActorProtocol.SingleThreaded | include/ncaf/internal/actor.h:237-286 | the user object is never entered by two threads, old consumers in their re-check notwithstanding |
| ActorProtocol.InOrderExactlyOnce | include/ncaf/internal/actor.h:268-277 | executed, executing and waiting messages are the push order, each once |
| ActorProtocol.ActivationIsBounded | include/ncaf/internal/actor.h:269-277 | an activation executes at most the limit, or one message if the limit is zero |
| ActorProgress.OrderIsPushed | include/ncaf/internal/actor.h:218-223 | over every run the mailbox order is the messages of the push calls, each once, in the order of their exchanges |
| ActorProgress.DrainStep | include/ncaf/internal/actor.h:269-277 | a message that can be popped is popped and then executed; the drain loop is left only with the bound reached or nothing to pop |
| ActorProgress.LoneDrain | include/ncaf/internal/actor.h:269-277 | undisturbed, an activation executes exactly the smaller of its bound and the number of linked waiting messages, the first ones in order |
| ActorProgress.EverythingGetsExecuted | include/ncaf/internal/actor.h:218-285 | from every reachable live state with a free thread some run without new calls executes every message pushed so far, in order |
| ActorProgress.DestructionGetsDone | include/ncaf/internal/actor.h:201-285 | with the flag set and a thread free some run without new calls ends the wait of `AsyncDestroy` with exactly one reset |
| ActorProtocol.PendingCount | include/ncaf/internal/actor.h:210-221 | the pending count, modulo 2^64, in every reachable state, although it is raised after the push |
| ActorProtocol.DestroyIsComplete | include/ncaf/internal/actor.h:201-215 | the wait of `AsyncDestroy` ends, with no push in flight, only after exactly one reset and with an exact count |
| ActorDestruction.CompleteIffNoPush | include/ncaf/internal/actor.h:201-245 | for the first call, with a thread free to run tasks: under every schedule without further pushes the wait ends only when the destruction is complete, if and only if no push is under way at the call |
| ActorDestruction.DestroyWithoutPush | include/ncaf/internal/actor.h:201-215 | if no push is under way at the call and none is called afterwards, the wait ends only with one reset and an exact count, whatever else is called |
| ActorDestruction.PushAtCallDefeatsDestroy | include/ncaf/internal/actor.h:201-245 | from every live state with a push under way at the call, some run without further calls ends the wait with the instance alive |
| ActorDestruction.FailsAtOnceIffPushHoldsToken | include/ncaf/internal/actor.h:201-245 | called on an empty scope, the wait can end at once with the instance alive if and only if some push has won the activation and not yet scheduled the actor |
| ActorDestruction.OverlappingPushDefeatsDestroy | include/ncaf/internal/actor.h:201-223 | for every limit a new actor has a run with one overlapping push that ends the wait with the instance alive |
| ActorProtocol.DestructionIsFinal | include/ncaf/internal/actor.h:248-266 | after the reset nothing executes and at most one further activation starts |
| ActorProtocol.ApplyKeepsInv | include/ncaf/internal/actor.h:199-286 | every access of every thread keeps the token, the order and the count |
| ActorProtocol.Actor.PushMessage | include/ncaf/internal/actor.h:218-223 | starts a push in place |
| ActorProtocol.Actor.AsyncDestroy | include/ncaf/internal/actor.h:201-208 | starts a destruction in place |
| ActorProtocol.Actor.PullMailboxAndRun | include/ncaf/internal/actor.h:248-250 | starts a scheduled task in place |
| ActorProtocol.Actor.ResumeChecks | include/ncaf/internal/actor.h:250-266 | the checks of a task and the destroying branch in place |
| ActorProtocol.Actor.ResumeDrain | include/ncaf/internal/actor.h:269-277 | the drain loop in place |
| ActorProtocol.Actor.ResumeRelease | include/ncaf/internal/actor.h:278-285 | subtraction, release and re-check in place |
| ActorProtocol.Actor.Resume | include/ncaf/internal/actor.h:199-286 | the next access of any thread, keeping the invariant |
| Broker.CompletedOnceWithItsReply | src/ncaf/internal/network.cc:123-139 | an operation is completed at most once, a normal one with the data its responder gave for this very request |
| Broker.RequestsArriveIntact | src/ncaf/internal/network.cc:230-234 | a handed-out request is that of one open operation of another node, with the data that was sent |
| Broker.LookupsNeverMiss | src/ncaf/internal/network.cc:227-236 | no table look-up throws, and no message is neither request nor response |
| Broker.NoConfusion | src/ncaf/internal/network.cc:227-236 | what arrives at the requester is the reply to an open operation, what arrives at the responder a new request |
| Broker.SelfSendRefused | src/ncaf/internal/network.cc:104-106 | a request to the own node leaves no trace |
| Broker.WaitingOpsAreInTable | src/ncaf/internal/network.cc:136-139 | a normal operation waiting for its reply is in the table, under its id |
| Broker.ControlOpsStayInTable | src/ncaf/internal/network.cc:163-166 | quit and heartbeat operations are completed but never erased |
| Broker.NoOperationIsLost | src/ncaf/internal/network.cc:136-180 | a started operation that is not completed is in exactly the queue, message or table where some thread will find it |
| BrokerCalls.OperationsAreOrders | src/ncaf/internal/network.cc:104-120 | over every run the operations of a node are, in order, the requests it was called to send and did not refuse: destination, data and flag |
| BrokerCalls.RequestsWereOrdered | src/ncaf/internal/network.cc:230-234 | a request that has arrived was ordered by some caller, of this node, with this data |
| BrokerProgress.EveryStepCounts | src/ncaf/internal/network.cc:123-236 | every step of every thread but the making of a new request lowers what is left to do |
| BrokerProgress.RunsAreBounded | src/ncaf/internal/network.cc:123-236 | so a run without new requests has at most as many steps as there is left to do |
| BrokerProgress.SomebodyCanStep | src/ncaf/internal/network.cc:123-236 | as long as an operation is open somebody can take such a step |
| BrokerProgress.SomeRunEnds | src/ncaf/internal/network.cc:123-236 | from every reachable state some run reaches a point where only new requests can follow |
| BrokerProgress.EveryOperationCompletes | src/ncaf/internal/network.cc:104-236 | a run that can only be continued by new requests has completed every operation, each normal one once and with its responder's data |
| Broker.ApplyKeepsInv | src/ncaf/internal/network.cc:104-236 | every step of every thread of every node keeps requests and replies correlated |
| Broker.Cluster.SendRequest | src/ncaf/internal/network.cc:104-120 | a fresh identifier, or a refusal |
| Broker.Cluster.PushOperation | include/ncaf/internal/network.h:81-89 | the start of an operation: once, table before queue |
| Broker.Cluster.RunSender | src/ncaf/internal/network.cc:146-167 | an access of the operation half of the send loop |
| Broker.Cluster.HandleReceivedMessage | src/ncaf/internal/network.cc:202-236 | classifies and looks up without ever throwing |
| Broker.Cluster.RunReceiver | src/ncaf/internal/network.cc:227-234 | erasing and completing an operation, or entering a request |
| Broker.Cluster.RunReply | src/ncaf/internal/network.cc:123-134 | an access of `ReplyRequest` or of the reply half of the send loop |
| RequestHandlers.OneReply | src/ncaf/internal/actor_registry.cc:33-71 | the arrival of a request, or the end of its method call, gives one reply, to that request, if and only if its handling ends normally with it |
| RequestHandlers.CreationIsAllOrNothing | src/ncaf/internal/actor_registry.cc:109-150 | a creation registers its actor and says so, or changes nothing and reports an error |
| RequestHandlers.CreatedActorIsFound | src/ncaf/internal/actor_registry.cc:51-69 | a look-up after a creation finds the new actor |
| RequestHandlers.ExactlyOneReply | src/ncaf/internal/actor_registry.cc:33-193 | over every interleaving of requests and of the ends of their method calls, a request has exactly one reply, whose body is the one read off the events (what its method returned or threw, the id its name leads to, or the error), if it was well formed and nothing but a `std::exception` left its handler or its method call, and otherwise none |
| RequestHandlers.AwaitsItsActor | src/ncaf/internal/actor_registry.cc:153-184 | a request that waits for its method waits for the actor and the method that its arrival named |
| RequestHandlers.ReturnDecides | src/ncaf/internal/actor_registry.cc:185-193 | the end of a method decides on the reply to its request, once and for all |
| RequestHandlers.Processor.HandleActorCreationRequest | src/ncaf/internal/actor_registry.cc:109-150 | the creation handler in place, every name still leading to an actor |
| RequestHandlers.Processor.HandleActorMethodCallRequest | src/ncaf/internal/actor_registry.cc:153-184 | the method-call handler in place, up to the wait for the method |
| RequestHandlers.Processor.ResumeMethodCall | src/ncaf/internal/actor_registry.cc:185-193 | the rest of it, when the method has come back or thrown |
| RequestHandlers.Processor.HandleNetworkRequest | src/ncaf/internal/actor_registry.cc:33-71 | the dispatch in place: one reply to the right request, an exception and none, or a wait; an exception exactly for malformed requests and odd throws |
| Replying.CompletedByItsHandler | src/ncaf/internal/network.cc:109-139 | end to end: a completed request got, once, the encoding of the one reply its responder's registry gave to it, which is the outcome that the events of that registry say, and it arrived there with the data that was sent |
| Replying.RegistriesRun | src/ncaf/internal/actor_registry.cc:33-193 | what a registry does in a run of the cluster is a run of the registry |
| Replying.ArrivalsAreDecoded | src/ncaf/internal/actor_registry.cc:33-50 | what reaches a registry is what its broker received for that request, decoded |
| Replying.BrokerAgrees | src/ncaf/internal/network.cc:123-134 | `ReplyRequest` finds the identifier of the request whenever a handler replies |
| Replying.BrokersRun | src/ncaf/internal/network.cc:123-236 | every run of brokers and registries together is a run of the brokers |
| Replying.ActionKeeps | src/ncaf/internal/actor_registry.cc:33-193 | every step of brokers and registries keeps replies, requests and operations matched |
| ClusterStop.NobodyPassesEarly | src/ncaf/internal/network.cc:47-62 | no node passes its latch before every node has called stop |
| ClusterStop.LatchNeverNegative | src/ncaf/internal/network.cc:214-220 | a latch is above zero whenever it is counted down |
| ClusterStop.QuitsSentBeforeThreadsStop | src/ncaf/internal/network.cc:62-68 | a node stops its threads only after all its quit messages have been sent |
| ClusterStop.StoppedHasHeardAll | src/ncaf/internal/network.cc:58-60 | a node that has stopped has heard from every other one, and its latch is at zero |
| ClusterStop.SomebodyCanStep | src/ncaf/internal/network.cc:47-70 | no deadlock once all nodes have called stop |
| ClusterStop.EveryStepCounts | src/ncaf/internal/network.cc:47-70 | every step lowers what is left to do in the cluster |
| ClusterStop.RunsAreBounded | src/ncaf/internal/network.cc:47-70 | every run has at most as many steps as there is left to do |
| ClusterStop.AllStop | src/ncaf/internal/network.cc:47-70 | if all nodes call stop, a run that cannot be continued has stopped them all |
| ClusterStop.Cluster.RunStop | src/ncaf/internal/network.cc:47-69 | the next access of `ClusterAlignedStop` in place |
| ClusterStop.Cluster.RunSender | src/ncaf/internal/network.cc:160-166 | a quit message is handed to the socket, then completed |
| ClusterStop.Cluster.HandleQuit | src/ncaf/internal/network.cc:214-220 | a quit message counts down a latch that is above zero |

## Left out

- Weak memory orderings, cache alignment, sanitizer macros: all machines are sequentially consistent, and a compound access is split into its loads, stores and read-modify-writes; stores to memory that only one thread can reach are folded into a neighbouring step.
- Exceptions in constructors and assignments of queue elements, with the rollback of `enqueue_bulk` for them; only allocation failure is modelled.
- Explicit producers, tokens, consumer rotation and the hash of producers by thread id: ncaf uses implicit producers only, one at a time is modelled.
- The initial block pool is part of the pool in `ImplicitProducer` and `BlockRecycling`; `MAX_SUBQUEUE_SIZE` has its default, which switches its test off.
- 64-bit wrap-around of tags, message identifiers and block numbers in the concurrent machines: they are unbounded there, and words where the source compares them circularly (`DequeueCounters`, `CircularIndex`, `ImplicitProducer`, `BlockIndex`, `ActorProtocol`).
- DequeueCounters.HeadNeverPassesTail: covers runs in which no two compared counters are more than half a turn apart, and dequeues that ask for at least one item, as all callers in the blocking queue do.
- ImplicitProducer.Producer.EnqueueBulk: takes at most 2^63 items in one call; the index ring is one value that is replaced as a whole, and blocks and entries are numbered, so aliasing of the C++ pointers is a matter of equal numbers.
- ImplicitProducer.Producer.Dequeue: is the operation with no other consumer running; what consumers do to each other is in the concurrent machines.
- BlockIndex.LookupsFindTheirBlock: assumes an index of at most 2^56 entries; the producer's own look-ups during a rollback are modelled, its element stores are in `BlockRecycling`.
- BlockRecycling.ConsumersGetTheirSlots: takes claims and look-ups as guards of its events; `ConcurrentProducer.DequeuesGetTheirSlots` is the statement without them.
- ConcurrentProducer.DequeuesGetTheirSlots: covers a producer whose index exists, and the windows of `DequeueCounters`; what a refused first index leads to is in `ImplicitProducer`.
- ActorProtocol.DestroyIsComplete: speaks of the end of a wait with no push in flight; `ActorDestruction.CompleteIffNoPush` is the exact condition at the call.
- ActorDestruction.CompleteIffNoPush: assumes one thread besides the caller that is free to run tasks, as the scheduler's threads are, and room for one more message.
- LightweightSemaphore.PermitsConserved: a single wait is a wait for many with a maximum of one, which makes the same accesses; the operating system's semaphore is a counter whose wait may fail or time out at any time.
- MpscQueue.FailureMeansEmpty: the blocking `dequeue` that waits on the link is not modelled.
- NodePool.ApplyKeepsInv: the global reset by the last queue is left out, and pages are never given back before it.
- NodeOwners.OneOwner: an enqueue or dequeue is one step there, its accesses are those of `MpscQueue`; a thread ends with nothing in hand.
- Broker.NoOperationIsLost: completed operations stay readable, although the source may have destroyed one by the time the send loop reads its flag; a second `start`, which terminates the program, is not a step.
- Heartbeats, `last_seen_` and the liveness check, and heartbeats that are spawned while a node stops.
- ZeroMQ sockets, their linger option and wire framing: channels are reliable and may reorder; serialization of identifiers, arguments and actor references.
- stdexec senders, coroutines and the scheduler: the scope is a counter of outstanding tasks, a scheduled task starts at any later time.
- Registry start-up and shutdown, the list of nodes, random numbers (a fresh id is given), logging.
