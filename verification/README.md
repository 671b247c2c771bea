# A model of an enclave key-value server and its queues

The repository is a small key-value server that runs in an enclave: requests come in over UDP, pass through
five stages joined by queues, are served by a store of two in-memory tables, and are answered over UDP. Most
of its code is the concurrent queues the stages and the client stand on. This project models that code and
proves what its comments, its assertions and its structure promise.

`dafny verify dfyconfig.toml` checks the whole project.

## How the code is modelled

* **Lock-free protocols** (`FreeList`, `OptimisticDequeue`, `LightweightSemaphore`, `BlockingQueue`,
  `SpscQueue`, `MpmcQueue`, `ConcurrentLookup`, `BlockCounts`, `ConcurrentTable`) are state machines. Every atomic load, store or read-modify-write is one step of
  one thread; a program counter per thread names the next access, with the locals still needed, and the
  comments beside the program counters give the source line. A run is any list of steps of any number of
  threads, so every theorem about `Run` is about every interleaving. Memory is sequentially consistent.
  Weak compare-exchanges may fail spuriously, timed waits may give up at any point, and inner queues may
  miss elements, wherever the source allows for it. What a theorem needs to remember of a run beyond the state
  (`OptimisticDequeue`, `FreeList`, `MpmcOrder` and others) is a history tracked beside it, step by step. What a call
  returns is stated twice: over every interleaving by what the thread itself loaded during the call (its record,
  look, sight or trace), and from every reachable state for a thread that runs on alone.
* **Objects that are updated in place** (`MemTable`, `KVStore`, `ImplicitProducer`, `ExplicitIndex`,
  `ProducerTable`) are classes with the source's fields and loops. Beside each class its state is a value
  with functions and lemmas; the methods are proved to do what the functions say or to keep the invariant
  the lemmas are about. Pointers to blocks and producers are numbers, arrays reached through pointers are
  sequences, and memory that may run out is a budget that may have any value before any call.
* **Arithmetic** is explicit about width: 32-bit tickets and 64-bit indices wrap, table sizes wrap at 2^64,
  `>>`, `&`, `|` and `^` are defined digit by digit in `Bits`. Where a model uses natural numbers for
  indices, `WrappedIndices` and the last part of `OptimisticDequeue` prove that the wrapped computations of
  the source give the same results, and under which condition.
* **Stages** (`Pipeline`): every pop, every piece of work and every push of the five threads is one step. A
  command whose type is never set carries an arbitrary value for it, so malformed commands are covered too.
  What clients see is stated by datagrams and replies alone. `QueuedPipeline` puts an `SpscQueue` in place of
  each of the four queues, with every load and store a step of its own, and proves that its runs are runs of
  `Pipeline`.

The files build on each other: `Bits`, `Sums`, `Wrappers`; then `FreeList`, `OptimisticDequeue`,
`LightweightSemaphore` and `BlockingQueue`; `SlotMap`, `SpscQueue`, `QueueContents`, `MpmcQueue`,
`TicketLine`, `MpmcOrder`; `BlockIndex`, `ConcurrentLookup`, `BlockCounts`, `BlockStorage`, `ImplicitProducer`, `ExplicitIndex`, `WrappedIndices`;
`ProducerTable`, `ConcurrentTable`; `MemTable`, `KVStore`, `KVHistory`, `TableLimits`, `ReadFreshness`;
`Pipeline`, `FlushFlag`, `QueuedPipeline`; and `Murmur`, `MurmurAnswers`.

## Where the code does not do what it seems to promise

Each of these has the inputs that show it and the exact condition under which the promise holds.

* `LightweightSemaphore::waitMany` asserts that it returns at least one permit (line 403). With `max` 0 it
  returns 0 (`WaitForNoneReturnsNothing` is a run). `ResultsAreInRange` says exactly when the result is
  positive.
* `try_push` on a queue of capacity 2^31 always refuses, because the capacity is compared as a signed
  number (`LargestQueueRefusesWhileEmpty` is a run); `TryPushRefuses` and `TryPopRefuses` are the exact
  conditions.
* `round_up_to_power_of_2` is 0 for 0 and for anything above 2^31 (`RoundUpIsLeastPower`).
* `MemTable::IsEmpty` looks at the byte count, so a table that holds only the empty key with the empty value
  counts as empty (`IsEmptyMeans` is the exact condition, `EmptyPairLooksEmpty` the entry).
* A table is said to be mutable only while its size is below the limit (src/enclave/memtable.h:50).
  Overwriting a value skips the test, and a limit of zero or thawing a full table breaks it too
  (`LimitCanFail`). `LimitKeptExactly` gives the exact condition for every operation of a table;
  `BelowLimitExactly` gives it for a table after any run of the store, where the last write into it decides
  (`ShorterValueMends`: a shorter value undoes an earlier overstep); and `AlwaysBelowExactly` says that both
  tables stay below a positive limit throughout a run exactly if no write of the run oversteps.
* A flush scans the tables by index, so it need not take the older of two frozen tables: exactly if table 1 is
  the current one it does (`FlushTarget`). If it empties the newer table, reads can find an older value
  again: `ReadsCanGoBack` is a run in which an acknowledged write is followed by reads of the value before
  it. `EndFlushKeepsReads` says exactly which flushes keep every readable value, and `ReadsFreshExactly` that
  the reads of a run never return an overwritten value exactly if none of its flushes empties the current
  table while the other disagrees with it.
* No stage ends a flush, so from the first write that is refused on every write is (`RefusedForever`;
  `ThirdWriteIsRefused` is a list of commands with a refused write). That describes a store with a flush flag
  of its own. In the source the stage's store has none: `flush_sema` is a pointer that is never set
  (src/enclave/memtable_stage.cpp:25, src/enclave/kvs.h:36), and the first write that raises the flag goes
  through it. `FlushFlag` says which one that is: all commands before the first write of a new key that takes
  the bytes written to the threshold leave the flag alone (`FlagUntouchedExactly`), and of those every
  statement here holds of the source as it stands.
* A queue with several producers or consumers is not first-in-first-out: `LaterPushOvertakes` is a run in which a
  push that started after another one had returned is popped first. The exact condition is about turns: a
  successful exchange of a slot's state is in turn if no other thread waits on the slot for the same kind of
  operation with an earlier ticket. If all are, the pop with ticket i returns the value pushed with ticket i
  (`InTurnMeansInOrder`); where one side's are, as with one popping or one pushing thread, the pops are in
  order exactly if what they popped won its slot in turn on the other side (`InOrderExactly`,
  `OneSidedExactly`); and they are if no ticket is drawn before the one `size_` earlier has won its slot
  (`TimelyRunsAreInTurn`), as with one thread on each side (`OnePairInOrder`). `OvertakingIsOutOfTurn` shows the
  run above to be out of turn.
* `dequeue_bulk` with `max` 0 on a queue that is not empty takes no element, but looks a block up and adds 0 to its
  counter; if another consumer has just emptied that block, both give it back
  (`AskingForNothingGivesBackTwice` is a run). Each block is given back once, and never while in use, exactly if no
  such call finds the counter full (`GivenBackOnceExactly`), and always if every call asks for something
  (`AskingForSomethingSuffices`).

## Model

| member | source | states |
|---|---|---|
| FreeList.RunKeepsInv | src/util/concurrentqueue.h:1460-1539 | In every interleaving the list is acyclic, every node's count is its list reference plus its holders plus the flag, and every node has exactly one thread, list or client responsible for it |
| FreeList.StepKeepsInv | src/util/concurrentqueue.h:1460-1539 | Every single atomic step of any thread keeps that invariant |
| FreeList.HandedOutOnce | src/util/concurrentqueue.h:1460-1509 | A node is returned by `try_get` exactly when it was added and not returned since |
| FreeList.AddedBetween | src/util/concurrentqueue.h:1460-1509 | Between two returns of a node lies a call of `add` for it, and between two calls of `add` a return |
| FreeList.PoppedNodeIsNotFlagged | src/util/concurrentqueue.h:1492-1494 | The assertion on the flag of a popped node never fails |
| FreeList.PopInstallsSuccessor | src/util/concurrentqueue.h:1488-1499 | A successful compare-exchange of the head installs the popped node's true successor |
| FreeList.HeldNextIsStable | src/util/concurrentqueue.h:1517-1536 | While a thread holds a counted reference no step changes the node's `freeListNext` |
| FreeList.NothingIsLost | src/util/concurrentqueue.h:1460-1539 | The exact value of every count, and that a node not owned by a client is listed, in one thread's hands, or flagged with a holder that will add it |
| FreeList.QuiescentListIsComplete | src/util/concurrentqueue.h:1460-1539 | When all calls have returned, the list holds exactly the nodes added and not taken, with count one |
| FreeList.SoloTryGetTakesHead | src/util/concurrentqueue.h:1479-1510 | From any state of any run a `try_get` that runs alone returns the node at the head and moves the head to its successor, and returns nothing exactly if there is no head |
| FreeList.SoloAddLists | src/util/concurrentqueue.h:1465-1471 | From any state of any run an `add` that runs alone puts its node at the head if nobody holds a reference to it, and otherwise leaves it flagged for the last holder |
| FreeList.SoloDropLists | src/util/concurrentqueue.h:1504-1507 | A thread that drops the last reference to a flagged node and runs alone puts it at the head |
| FreeList.SoloReturns | src/util/concurrentqueue.h:1460-1539 | Wherever all threads stopped, each of them comes back from its call if it runs alone |
| FreeList.NothingOnlyFromEmpty | src/util/concurrentqueue.h:1479-1510 | In every interleaving a `try_get` comes back without a node only if the last head it loaded was null |
| OptimisticDequeue.RunKeepsInv | src/util/concurrentqueue.h:1956-2053 | Every interleaving keeps the accounts of decided and undecided dequeue tickets |
| OptimisticDequeue.ClaimsAreBacked | src/util/concurrentqueue.h:1982-2004 | `dequeueOptimisticCount = headIndex + dequeueOvercommit + claims in flight`, and `headIndex` plus the claims already granted never passes `tailIndex` |
| OptimisticDequeue.OpenTickets | src/util/concurrentqueue.h:1980-1992 | The tickets neither granted nor refused are exactly those that threads hold |
| OptimisticDequeue.DeliveredOnce | src/util/concurrentqueue.h:2249-2339 | Every index below `headIndex` is returned once or in one thread's hands, every other index untouched, for single and bulk dequeues mixed |
| OptimisticDequeue.ReturnsWhatWasEnqueued | src/util/concurrentqueue.h:2781-2880 | A dequeue returns the elements enqueued at the indices it claimed, and those are the values of the enqueues in order |
| OptimisticDequeue.QuiescentCounters | src/util/concurrentqueue.h:2040-2053 | Once all dequeues have returned the effective count equals `headIndex` |
| OptimisticDequeue.SoloDequeueSucceeds | src/util/concurrentqueue.h:2552-2620 | Without interference a dequeue from a non-empty queue succeeds with as many elements as asked for and there |
| OptimisticDequeue.ReturnsWhatItSaw | src/util/concurrentqueue.h:1956-2053 | In every interleaving a dequeue returns nothing exactly if the index it expected was not below the tail it loaded, at first or once it had its ticket, and otherwise what it wanted of the elements there both times |
| OptimisticDequeue.CircularAgrees | src/util/concurrentqueue.h:477-484 | `circular_less_than` is `<` while the true distance is below half the range, and the exact condition otherwise |
| OptimisticDequeue.WrappedDecisionAgrees | src/util/concurrentqueue.h:2251-2257 | The decision to try on wrapped counters is the one on true counts |
| LightweightSemaphore.RunKeepsInv | src/util/lightweightsemaphore.h:276-416 | Every interleaving of signals, waits, timeouts and cancellations keeps both accounts |
| LightweightSemaphore.SignalKeepsAccounts | src/util/lightweightsemaphore.h:407-416 | A signal splits its permits between the count and the kernel exactly by the debt |
| LightweightSemaphore.PermitsAreConserved | src/util/lightweightsemaphore.h:276-416 | initial + signalled = acquired + max(count, 0) + kernel + posts in flight |
| LightweightSemaphore.NoLostWakeup | src/util/lightweightsemaphore.h:276-416 | committed waiters = kernel + posts in flight + max(0, -count): with a count of at least 0 every waiter has a permit posted or on its way |
| LightweightSemaphore.ResultsAreInRange | src/util/lightweightsemaphore.h:376-404 | Results never exceed `max`, and a wait without timeout gets at least one permit if and only if it asked for one |
| LightweightSemaphore.WaitForNoneReturnsNothing | src/util/lightweightsemaphore.h:392-405 | A run in which `waitMany(0)` returns 0, so that the assertion at line 403 fails |
| LightweightSemaphore.ReturnsWhatItSaw | src/util/lightweightsemaphore.h:311-398 | In every interleaving `tryWaitMany` returns as many permits as it last saw, up to its `max`, and `waitMany` what it saw, or one and what it then saw, or none, and that only if its kernel wait ended without a permit |
| LightweightSemaphore.OnlyWaitsWait | src/util/lightweightsemaphore.h:355-398 | `tryWaitMany` never commits to a wait, and a wait without timeout gives up only by a failure of the kernel |
| LightweightSemaphore.SpinsFirst | src/util/lightweightsemaphore.h:276-287 | A thread commits to a wait only after `m_maxSpins` rounds |
| LightweightSemaphore.SoloCallReturns | src/util/lightweightsemaphore.h:376-398 | From any state of any run a call that runs alone while permits are there returns as many as are there, up to its `max`, and a `tryWaitMany` nothing if none are |
| LightweightSemaphore.SoloSpinTakes | src/util/lightweightsemaphore.h:315-327 | A spinning thread alone takes the permits that are there |
| LightweightSemaphore.PostedPermitWakes | src/util/lightweightsemaphore.h:328-347 | From any state of any run, while the kernel has a permit, a thread in its kernel wait that runs alone returns with that one and as many more as are in the count, up to its `max` |
| LightweightSemaphore.SoloCancelReturns | src/util/lightweightsemaphore.h:332-341 | A thread whose kernel wait ended takes its debt back and returns nothing, or there is none and it returns the permit posted for it and more that are there |
| LightweightSemaphore.SoloSignalReturns | src/util/lightweightsemaphore.h:407-416 | From any state of any run a signal that runs alone returns, with its permits in the count and those that meet the debt posted |
| BlockingQueue.RunKeepsInv | src/util/blockingconcurrentqueue.h:123-186 | Every interleaving of the wrapper's operations keeps queue and semaphore in step |
| BlockingQueue.ElementsMatchPermits | src/util/blockingconcurrentqueue.h:123-186 | The inner queue holds exactly one element per permit in the count, in the kernel, in hand or still to be signalled |
| BlockingQueue.SpinsNeverFaceEmptyQueue | src/util/blockingconcurrentqueue.h:359-386 | The loops after a successful wait always have an element left to find, for single, bulk and timed operations |
| BlockingQueue.ElementsAreConserved | src/util/blockingconcurrentqueue.h:294-335 | Nothing is lost, duplicated or reordered within a producer, and at rest the count is the number of elements |
| BlockingQueue.CallsAreFulfilled | src/util/blockingconcurrentqueue.h:294-386 | In every interleaving a returned `wait_dequeue` took exactly one element; a bulk call at most its `max`, exactly what it saw permits for if it only tries, and at least one if it waits without timeout for some and no kernel wait failed; an enqueue put in all its items or none |
| BlockingQueue.WaitsAsAsked | src/util/blockingconcurrentqueue.h:359-386 | The slow wait of a call is for as many elements and as long as the call asks; `try_dequeue` has none |
| BlockingQueue.SoloDequeueTakes | src/util/blockingconcurrentqueue.h:294-386 | From any state of any run a dequeue that runs alone while there are permits takes as many elements, up to its `max`, from the front of a queue that has them, also where `wait_dequeue` asks again |
| BlockingQueue.SoloEnqueuePuts | src/util/blockingconcurrentqueue.h:123-186 | From any state of any run an enqueue that runs alone puts its items at the end of its queue and returns with a permit signalled for each, those that waiting threads lack in the kernel |
| SlotMap.RoundUpIsLeastPower | src/util/atomic_queue/atomic_queue.h:93-115 | The least power of two not below the argument for 1 to 2^31, and 0 for every other argument |
| SlotMap.RemapSwaps | src/util/atomic_queue/atomic_queue.h:59-67 | `remap_index` swaps the two lowest groups of digits |
| SlotMap.RemapIsPermutation | src/util/atomic_queue/atomic_queue.h:59-72 | `remap_index` is an involution and permutes every power-of-two range from 2^(2 BITS) on |
| SlotMap.CapacityIsPower | src/util/atomic_queue/atomic_queue.h:545-551 | Whatever size is asked for, the capacity is a power of two that suits the remapping, and up to 2^31 the least such one that is large enough |
| SlotMap.SmallSizeGetsMinimum | src/util/atomic_queue/atomic_queue.h:545-551 | Sizes up to the minimum get the minimum |
| SlotMap.SlotsAreDistinct | src/util/atomic_queue/atomic_queue.h:532-541 | Any `size_` consecutive tickets use distinct slots inside the array, also across 32-bit wraparound |
| SlotMap.SlotsComeRound | src/util/atomic_queue/atomic_queue.h:532-541 | Ticket i and ticket i + `size_` have the same slot |
| SpscQueue.RunKeepsInv | src/util/atomic_queue/atomic_queue.h:213-328 | Every interleaving of one producer and one consumer keeps slots, tickets and histories consistent |
| SpscQueue.BoundedFifo | src/util/atomic_queue/atomic_queue.h:213-328 | What was popped is a prefix of what was pushed, in order, and at most `size_` elements are in between, each in its own slot, however often the tickets wrapped |
| SpscQueue.PushWaitsForRoom | src/util/atomic_queue/atomic_queue.h:240-247 | A push waits on its slot exactly while the queue is full |
| SpscQueue.PopWaitsForElement | src/util/atomic_queue/atomic_queue.h:214-221 | A pop waits on its slot exactly while there is no element |
| SpscQueue.SoloPushStores | src/util/atomic_queue/atomic_queue.h:240-246 | From any state of any run a push into a queue with room that runs alone stores its element in its slot and returns |
| SpscQueue.SoloPopTakes | src/util/atomic_queue/atomic_queue.h:215-222 | From any state of any run a pop from a queue with a published element that runs alone returns the oldest one |
| SpscQueue.TryPushRefuses | src/util/atomic_queue/atomic_queue.h:266-282 | `try_push` refuses exactly when the queue is full or its capacity is 2^31 |
| SpscQueue.LargestQueueRefusesWhileEmpty | src/util/atomic_queue/atomic_queue.h:266-270 | A run in which `try_push` refuses although the queue of capacity 2^31 is empty |
| SpscQueue.TryPopRefuses | src/util/atomic_queue/atomic_queue.h:285-301 | `try_pop` refuses exactly when nothing was accepted that is not popped, or 2^31 elements and more |
| SpscQueue.StageQueueCapacity | src/util/queue_generator.cpp:3-14 | The queues between the stages hold 4096 elements |
| QueueContents.PushStep | src/util/atomic_queue/atomic_queue.h:240-247 | Of the steps of a push exactly the store of the slot state appends its value to the queue, and the queue has room then |
| QueueContents.PopStep | src/util/atomic_queue/atomic_queue.h:214-222 | Of the steps of a pop exactly the store of the slot state takes the oldest element, which is the one returned |
| MpmcQueue.RunKeepsInv | src/util/atomic_queue/atomic_queue.h:223-328 | Every interleaving of any number of pushers and poppers keeps each slot's state and content in step |
| MpmcQueue.OneThreadPerSlot | src/util/atomic_queue/atomic_queue.h:223-261 | At most one thread is ever storing or loading a slot |
| MpmcQueue.NothingLostOrDuplicated | src/util/atomic_queue/atomic_queue.h:223-328 | Every value was pushed as often as it was popped, is in a slot or is in hand, and no pop returns an empty slot |
| MpmcQueue.QuiescentContents | src/util/atomic_queue/atomic_queue.h:303-328 | At rest the elements not popped are exactly those in the slots |
| MpmcQueue.SlotsAreInRange | src/util/atomic_queue/atomic_queue.h:223-328 | In every run, also where tickets wrap, every slot a thread aims at is one of the queue's |
| MpmcQueue.CallsAreFulfilled | src/util/atomic_queue/atomic_queue.h:264-321 | In every interleaving `try_push` is refused exactly if the queue looked full when it last loaded the counters, `try_pop` exactly if it looked empty, and every other call gets a ticket |
| MpmcQueue.StoresItsOwn | src/util/atomic_queue/atomic_queue.h:249-253 | A push stores its own value in the slot of its own ticket |
| MpmcQueue.TryPushAlone | src/util/atomic_queue/atomic_queue.h:272-278 | A `try_push` that runs alone comes back from a queue that looks full with nothing changed, and else draws a ticket |
| MpmcQueue.TryPopAlone | src/util/atomic_queue/atomic_queue.h:289-295 | A `try_pop` that runs alone comes back from a queue that looks empty with nothing changed, and else draws a ticket |
| MpmcQueue.LaterPushOvertakes | src/util/atomic_queue/atomic_queue.h:249-254 | A run in which the push of B returns before that of C is called, and C is popped first |
| TicketLine.NextInOrder | src/util/atomic_queue/atomic_queue.h:249-254 | After the first tickets of a slot have won in order, a win is in turn exactly if it is the next ticket's |
| MpmcOrder.RunKeepsOrderInv | src/util/atomic_queue/atomic_queue.h:223-328 | In every run stores and loads of a slot alternate, waiting threads have the tickets of their slots, and the log of pops tells whose element each returned |
| MpmcOrder.HistoryIsTrue | src/util/atomic_queue/atomic_queue.h:303-328 | The tickets' values are the values pushed, and the logged pops returned the values popped |
| MpmcOrder.InTurnMeansInOrder | src/util/atomic_queue/atomic_queue.h:223-328 | In every run whose exchanges were all in turn, the pop with ticket i returns the value pushed with ticket i |
| MpmcOrder.InOrderExactly | src/util/atomic_queue/atomic_queue.h:223-328 | In every run with one side in turn, every pop so far returned the element of its own ticket exactly if each of them won its slot in turn on the other side |
| MpmcOrder.TimelyRunsAreInTurn | src/util/atomic_queue/atomic_queue.h:312-325 | Every exchange is in turn if no ticket i is drawn before ticket i - size_ of its kind won its slot |
| MpmcOrder.OnePairInOrder | src/util/atomic_queue/atomic_queue.h:303-328 | With one pushing and one popping thread every pop returns the value of its ticket |
| MpmcOrder.OneSidedExactly | src/util/atomic_queue/atomic_queue.h:303-328 | With one popping thread the pops are in order exactly if what they popped was stored in turn, and with one pushing thread exactly if they took it in turn |
| MpmcOrder.OvertakingIsOutOfTurn | src/util/atomic_queue/atomic_queue.h:249-254 | In the run of the overtaking push the one pop returns the value of another ticket, which was stored out of turn |
| BlockIndexes.LookupLands | src/util/concurrentqueue.h:2949-2965 | The lookup for any ticket of a block in use finds the entry with that block and its base |
| BlockIndexes.RegisterKeepsIndex | src/util/concurrentqueue.h:2902-2934 | Inserting the next block into a free entry keeps every lookup and adds one |
| BlockIndexes.UndoKeepsIndex | src/util/concurrentqueue.h:2936-2940 | Rewinding an insertion without a block restores every lookup |
| BlockIndexes.GrowKeepsIndex | src/util/concurrentqueue.h:2967-3009 | Rotating into an index twice the size keeps every lookup, and its next entry is an unused one |
| BlockIndexes.ReleaseKeepsIndex | src/util/concurrentqueue.h:2600-2609 | Clearing the entry of a finished block keeps every other lookup |
| BlockIndexes.FreeSlotMeans | src/util/concurrentqueue.h:2908-2911 | An entry found free is never that of a block in use, though values start uninitialised |
| BlockIndexes.CoversOneLess | src/util/concurrentqueue.h:2902-2913 | A registered block takes exactly one of the blocks the index has room for |
| BlockIndexes.GrownCoversOneLess | src/util/concurrentqueue.h:2920-2933 | So does one for which the index doubles |
| BlockIndexes.RollingBackStep | src/util/concurrentqueue.h:2669-2675 | While a failed bulk enqueue is taken back, each lookup still finds its block from a tail that moves |
| BlockIndexes.RolledBackKeepsIndex | src/util/concurrentqueue.h:2663-2679 | After that loop every lookup there was before works again, whatever the index grew to |
| ConcurrentLookup.RunKeepsInv | src/util/concurrentqueue.h:2902-3009 | However the producer's insertions, retractions, growth and publications interleave with lookups and releases, entries of blocks in use keep their block, keys stay those of their numbers, and old headers agree with the new one |
| ConcurrentLookup.LookupFindsBlock | src/util/concurrentqueue.h:2949-2965 | The loads of header, tail, key and block, each at any later time and in a bulk dequeue on through the same header, give the block of the ticket and an entry with its base |
| ConcurrentLookup.FoundThroughOldHeader | src/util/concurrentqueue.h:2955-2962 | A run in which the index grows after the consumer loaded its header, and the lookup through the old one still gives the block |
| ConcurrentLookup.TailKeyIsValid | src/util/concurrentqueue.h:2957-2958 | The key a consumer loads at the tail is the base of a block no older than its own |
| ConcurrentLookup.GrowKept | src/util/concurrentqueue.h:2967-3009 | The index grows only where every key has its block, and the new header shares the entries that are live |
| ConcurrentLookup.RollbackEnds | src/util/concurrentqueue.h:2669-2679 | From any state in which it is not inserting the producer takes all unpublished blocks back by its own steps, and the published ones stay in use |
| BlockCounts.StepKeepsInv | src/util/concurrentqueue.h:2781-2868 | Every step keeps the account of every block: its counter and its tickets not yet counted make up its size, and it is in the pool or in use |
| BlockCounts.StepRefines | src/util/concurrentqueue.h:2949-2965 | With the counters in the state every step is one of the lookup machine, whose guard for releasing a block follows |
| BlockCounts.FullMeansAlone | src/util/concurrentqueue.h:1617-1635 | When a counter reaches the size of the block no other consumer works in it |
| BlockCounts.GivenBackOnceExactly | src/util/concurrentqueue.h:2781-2868 | Over every run each block is given back once and never while in use, exactly if no bulk dequeue for nothing finds the counter of its block full |
| BlockCounts.AskingForSomethingSuffices | src/util/concurrentqueue.h:2781-2868 | That is so in every interleaving in which every bulk dequeue asks for something |
| BlockCounts.AskingForNothingGivesBackTwice | src/util/concurrentqueue.h:2798-2858 | A run in which a bulk dequeue with max 0 puts a block into the pool a second time |
| BlockStorage.MoreDone | src/util/concurrentqueue.h:1626-1635 | Counting tickets done changes the counter of their own block only, by their number |
| BlockStorage.FinishedGivesBack | src/util/concurrentqueue.h:2600-2609 | A block is given back exactly when the last of its tickets is done: to the free list, or destroyed if it was allocated and the queue does not recycle those |
| BlockStorage.FinishedKeepsInv | src/util/concurrentqueue.h:2858-2868 | Taking elements of a block keeps the whole storage invariant |
| BlockStorage.WrittenKeepsInv | src/util/concurrentqueue.h:2544-2547 | Storing the next element in the tail block keeps it |
| BlockStorage.RegisteredKeepsCore | src/util/concurrentqueue.h:2494-2534 | So does putting a new block to use |
| BlockStorage.UntakenIsFound | src/util/concurrentqueue.h:2564-2570 | Every element not yet taken is where the lookup for its ticket leads |
| BlockStorage.BlocksAccounted | src/util/concurrentqueue.h:3069-3116 | A block is outside the pool exactly while some ticket of it is not done |
| BlockStorage.EmptyHasNoBlocks | src/util/concurrentqueue.h:2600-2609 | When all elements of whole blocks are taken every block is back |
| BlockStorage.SubqueueLimit | src/util/concurrentqueue.h:2496-2498 | A sub-queue never holds more than MAX_SUBQUEUE_SIZE elements |
| BlockStorage.BaseBefore | src/util/concurrentqueue.h:2644-2645 | The masked indices of the bulk formula are the last block bases before them |
| BlockStorage.ReservationGrows | src/util/concurrentqueue.h:2685-2699 | Every reserved block is linked behind the one before it |
| BlockStorage.FillStep | src/util/concurrentqueue.h:2711-2772 | Each round of the filling loop stays in its block, and the last block ends exactly at the new tail |
| ImplicitProducers.ImplicitProducer.constructor | src/util/concurrentqueue.h:2424-2430 | A new producer is empty |
| ImplicitProducers.ImplicitProducer.Enqueue | src/util/concurrentqueue.h:2487-2549 | Appends the element, or changes nothing; exactly when it fails |
| ImplicitProducers.ImplicitProducer.EnqueueBulk | src/util/concurrentqueue.h:2626-2775 | Appends all elements, or none and restores tail block and blocks in use; succeeds exactly if there is leeway for the last block, as many blocks in the pool and the heap as it needs, and index entries for them with memory for each doubling |
| ImplicitProducers.ImplicitProducer.ReserveBlocks | src/util/concurrentqueue.h:2638-2701 | Reserves exactly the blocks the elements need, linked in order, or none |
| ImplicitProducers.ImplicitProducer.RollBack | src/util/concurrentqueue.h:2663-2679 | Returns every reserved block to the pool once and restores the invariant |
| ImplicitProducers.ImplicitProducer.FillBlocks | src/util/concurrentqueue.h:2703-2772 | Stores the elements in order across the reserved blocks |
| ImplicitProducers.ImplicitProducer.Claim | src/util/concurrentqueue.h:2563-2563 | Claims the next tickets |
| ImplicitProducers.ImplicitProducer.Take | src/util/concurrentqueue.h:2564-2612 | Returns the element enqueued at the ticket, in whatever order tickets are taken, and gives the block back exactly with its last ticket |
| ImplicitProducers.ImplicitProducer.TakeFromBlock | src/util/concurrentqueue.h:2808-2868 | The same for the part of a bulk dequeue in one block |
| ImplicitProducers.ImplicitProducer.TakeBulk | src/util/concurrentqueue.h:2804-2870 | Returns the elements of consecutive tickets across blocks, looking up only the first block |
| ImplicitProducers.ImplicitProducer.Dequeue | src/util/concurrentqueue.h:2552-2622 | Takes the first element, or nothing exactly from an empty queue |
| ImplicitProducers.ImplicitProducer.DequeueBulk | src/util/concurrentqueue.h:2780-2880 | Takes the first elements, as many as asked for and there |
| ImplicitProducers.ImplicitProducer.NewBlockIndex | src/util/concurrentqueue.h:2967-3009 | The copying loop builds the rotated index |
| ImplicitProducers.ImplicitProducer.RequisitionBlock | src/util/concurrentqueue.h:3096-3116 | Hands out a block nobody has, and none exactly if there is none: initial blocks first, then the last one given back, memory only after these |
| WrappedIndices.WrappedLookupAgrees | src/util/concurrentqueue.h:2954-2962 | The signed, truncating lookup on wrapped indices finds the slot of the true indices while they are less than half the range apart |
| WrappedIndices.WrappedUntakenIsFound | src/util/concurrentqueue.h:2949-2965 | On wrapped indices the lookup of every ticket not yet taken leads to its block and element, while no block in use is more than half the range behind the last one |
| WrappedIndices.HalfRangeSuffices | src/util/concurrentqueue.h:2954-2962 | That is so whenever the entries of the index cover at most half the range |
| WrappedIndices.WrappedDiffAgrees | src/util/concurrentqueue.h:2644-2645 | The wrapped blockBaseDiff is one block per boundary crossed, also from index 0 and across the wrap |
| WrappedIndices.WrappedLeewayAgrees | src/util/concurrentqueue.h:2496-2496 | The wrapped test for leeway is the one on true indices |
| ExplicitIndices.RingLookupLands | src/util/concurrentqueue.h:2007-2018 | Every ticket not dequeued finds the pair of its own block |
| ExplicitIndices.AddedIsIndexed | src/util/concurrentqueue.h:1935-1940 | Adding a pair at the front keeps the pairs of the ring, even where the oldest is overwritten |
| ExplicitIndices.ReusedIsCounted | src/util/concurrentqueue.h:1858-1868 | Using the block ahead again is safe because only an empty block is ahead |
| ExplicitIndices.AppendedIsCounted | src/util/concurrentqueue.h:1897-1913 | So is linking in a new block |
| ExplicitIndices.GrownIsIndexed | src/util/concurrentqueue.h:2357-2394 | Copying into an index twice the size keeps every lookup |
| ExplicitIndices.ExplicitIndex.StartBlock | src/util/concurrentqueue.h:1854-1940 | Rotates the ring if its oldest block is empty, else appends a block, else changes nothing; exactly when which, and exactly when the index grows |
| ExplicitIndices.ExplicitIndex.CopyUsed | src/util/concurrentqueue.h:2371-2379 | The loop copies the used pairs, oldest first, also from a full index |
| ExplicitIndices.ExplicitIndex.SetEmpty | src/util/concurrentqueue.h:2007-2040 | A dequeue counts at the block of its own ticket |
| ProducerTables.EmptyMeansAbsent | src/util/concurrentqueue.h:3445-3447 | A probe that meets an empty slot proves the thread is not in the table |
| ProducerTables.PlacedKeepsTable | src/util/concurrentqueue.h:3508-3525 | Taking the first slot that is empty or a tombstone keeps every thread reachable |
| ProducerTables.BuriedKeepsTable | src/util/concurrentqueue.h:3551-3561 | So does a tombstone |
| ProducerTables.NewThreadReserves | src/util/concurrentqueue.h:3514-3523 | A new thread adds one to the used slots and unmigrated threads together, unless it takes a tombstone |
| ProducerTables.MigratedThreadReserves | src/util/concurrentqueue.h:3418-3441 | A migration uses the slot reserved for it, so there is room |
| ProducerTables.EmptyTableReserves | src/util/concurrentqueue.h:3475-3485 | A doubled table reserves a slot for every live thread within the count |
| ProducerTables.ProducerTable.Find | src/util/concurrentqueue.h:3410-3450 | The probe loops end, and find the thread in the newest table that has it, or prove it in none |
| ProducerTables.ProducerTable.TakeSlot | src/util/concurrentqueue.h:3425-3440 | The claiming loop ends at a slot that is not a thread's |
| ProducerTables.ProducerTable.RecycleOrCreate | src/util/concurrentqueue.h:3228-3243 | Gives the newest producer of a thread that is gone, or a new one exactly if there is none to recycle; none exactly if there is no memory either |
| ProducerTables.ProducerTable.AddTable | src/util/concurrentqueue.h:3462-3485 | The new table has the least doubled size that all live threads counted leave less than half full |
| ProducerTables.ProducerTable.GetOrAdd | src/util/concurrentqueue.h:3389-3534 | A live thread always gets its own producer back, a new one a recycled or new one of its own, none exactly if memory that is needed is missing; afterwards the thread is in the newest table, and there is a new table exactly if the old one would be half full |
| ProducerTables.ProducerTable.ThreadExited | src/util/concurrentqueue.h:3537-3565 | The thread leaves every table, and its producer may be recycled |
| ConcurrentTable.RunKeepsInv | src/util/concurrentqueue.h:3389-3534 | With any threads inside the call at once, every table keeps its threads reachable and its bound, the count counts them, one thread has the resize flag, and producers have one owner |
| ConcurrentTable.CountedKeepsOrder | src/util/concurrentqueue.h:3453 | However fetch_add and fetch_sub interleave, at most m threads are counted with m or less |
| ConcurrentTable.ProbingEnds | src/util/concurrentqueue.h:3495-3527 | In every interleaving less than three quarters of any table's slots are in use, so that no search or claim probes a table round |
| ConcurrentTable.OwnProducerAlways | src/util/concurrentqueue.h:3389-3534 | A call gives the thread's own producer, which no other thread has, or none to a thread without one |
| ConcurrentTable.ProducersStay | src/util/concurrentqueue.h:3423-3441 | No step of any thread takes a thread's producer away or changes it |
| ConcurrentTable.OneResizer | src/util/concurrentqueue.h:3456-3490 | At most one thread is between test_and_set and clear, and the table it doubles is the newest |
| ConcurrentTable.ReturnsPlaced | src/util/concurrentqueue.h:3386-3534 | In every interleaving a call returns no producer only if one of its own allocations failed; otherwise the thread has a slot in the table that was the newest when the call began, or in a newer one |
| ConcurrentTable.ResizedAtHalf | src/util/concurrentqueue.h:3456-3495 | A new thread goes into a table that its count leaves less than half full, unless another thread was just resizing |
| ConcurrentTable.EveryCallAdvances | src/util/concurrentqueue.h:3408-3533 | In every interleaving each step of a call brings it nearer to its end and no other thread takes it further away, except that it goes round while another thread resizes a table that is three quarters full |
| MemTables.PutKeepsSize | src/enclave/memtable.cpp:17-45 | `size_in_bytes_` stays the sum of all key and value lengths modulo 2^64, also where the unsigned difference wraps |
| MemTables.IsEmptyMeans | src/enclave/memtable.cpp:59-61 | Exactly when `IsEmpty` answers true |
| MemTables.EmptyPairLooksEmpty | src/enclave/memtable.cpp:59-61 | The one entry it overlooks |
| MemTables.LimitKeptExactly | src/enclave/memtable.h:50 | For every operation of a table, exactly when it leaves the table frozen or below its limit |
| MemTables.LimitCanFail | src/enclave/memtable.h:50 | The three ways to leave a mutable table at or above its limit |
| TableLimits.BelowLimitExactly | src/enclave/memtable.cpp:28-42 | After any run a mutable table is below its limit exactly if the limit is positive and the last write into it since it was emptied does not overstep |
| TableLimits.AlwaysBelowExactly | src/enclave/memtable.h:50 | With a positive limit both tables are below it or frozen throughout a run exactly if no write of the run oversteps |
| TableLimits.ZeroLimitNeverHolds | src/enclave/memtable.h:50 | With limit zero no mutable table is ever below it |
| TableLimits.ShorterValueMends | src/enclave/memtable.cpp:40-42 | A shorter value brings a table that overstepped below its limit again |
| TableLimits.OverwritePastLimit | src/enclave/memtable.cpp:40-42 | A run that leaves a mutable table at twice its limit |
| MemTables.MemTable.Put | src/enclave/memtable.cpp:17-45 | Writes the pair, updates the size, and freezes the table exactly if a new key reaches the limit |
| MemTables.MemTable.Get | src/enclave/memtable.cpp:48-57 | The value of the key, or failure with the argument left alone |
| MemTables.MemTable.InitFlush | src/enclave/memtable.cpp:79-90 | Starts exactly on a frozen table not being flushed |
| MemTables.MemTable.EndFlush | src/enclave/memtable.cpp:92-100 | Empties and thaws the table |
| MemTables.MemTable.Dump | src/enclave/memtable.cpp:102-111 | Lists every pair exactly once |
| KVStores.NewIsEmpty | src/enclave/kvs.cpp:11-29 | A new store satisfies the invariant and is empty |
| KVStores.SwitchKeepsView | src/enclave/kvs.cpp:40-61 | Switching tables loses nothing |
| KVStores.PutRefinesOverlay | src/enclave/kvs.cpp:38-71 | A write that passes changes exactly its key of the older table overlaid by the newer; one that waits changes only the flag; it waits exactly if both tables are frozen |
| KVStores.InitFlushKeepsView | src/enclave/kvs.cpp:97-125 | Opening a flush changes no content; an open one stays; none opens exactly if no table is frozen |
| KVStores.EndFlushEmptiesTarget | src/enclave/kvs.cpp:127-141 | Ending a flush empties the target only, and the flag says whether the other is frozen |
| KVStores.FlushTarget | src/enclave/kvs.cpp:109-115 | Exactly when a flush takes the current table, and of two frozen tables exactly when it takes the older one |
| KVStores.EndFlushKeepsReads | src/enclave/kvs.cpp:127-141 | What reads see after a flush, and exactly when every readable key keeps its value |
| KVStores.ForceKeepsView | src/enclave/kvs.cpp:143-148 | Freezing both tables changes no content, and every write waits |
| KVStores.KVStore.constructor | src/enclave/kvs.cpp:11-29 | Builds the new store |
| KVStores.KVStore.Put | src/enclave/kvs.cpp:38-71 | The loops and branches compute the store and the status of the specification |
| KVStores.KVStore.Get | src/enclave/kvs.cpp:73-93 | Answers from the newest table that has the key: the overlay's value, or READ_FAIL |
| KVStores.KVStore.InitFlush | src/enclave/kvs.cpp:97-125 | Opens or keeps the flush and lists the target's pairs |
| KVStores.KVStore.EndFlush | src/enclave/kvs.cpp:127-141 | Ends the flush |
| KVStores.KVStore.ForceReadyToDie | src/enclave/kvs.cpp:143-148 | Freezes both tables |
| KVStores.KVStore.IsReadyToDie | src/enclave/kvs.cpp:150-156 | True exactly if both byte counts are zero |
| KVHistory.RunKeepsInv | src/enclave/kvs.cpp:38-156 | Over every run `usage_q` is not empty, has no duplicates, ends in the current table and lists every non-empty one; the other table is frozen or empty; only the target is being flushed |
| KVHistory.ViewIsWrites | src/enclave/kvs.cpp:38-93 | Until a flush ends the store is the map of the acknowledged writes |
| ReadFreshness.NextIsFresh | src/enclave/kvs.cpp:73-141 | One operation keeps reads from going back exactly if it does not empty the current table while the other disagrees with it |
| ReadFreshness.FreshUpToFirst | src/enclave/kvs.cpp:73-141 | Before the first such flush no Get returns an overwritten value, and right after it some Get does |
| ReadFreshness.ReadsFreshExactly | src/enclave/kvs.cpp:73-141 | All reads of a run are of the last value written or of none exactly if the run has no such flush |
| ReadFreshness.ReadsCanGoBack | src/enclave/kvs.cpp:109-115 | A run in which a Get returns 2 after 3 was written and acknowledged |
| KVHistory.DiscardedWasDumped | src/enclave/kvs.cpp:97-141 | What EndFlush discards is what InitFlush dumped, and in between the table was not written and every dump was the same |
| KVHistory.WritesSurvive | src/enclave/kvs.cpp:38-141 | Every acknowledged write is in its table, overwritten there before the table was discarded, or in a later dump |
| KVHistory.FlagMeansFrozen | src/enclave/kvs.cpp:55-70 | Unless the tables are forced frozen, `flush_sema` is up exactly while some table is frozen |
| Pipeline.StepKeepsPipelineInv | src/host/host.cpp:127-136 | Every step of any stage keeps requests and replies in order of arrival |
| Pipeline.RepliesInOrder | src/host/host.cpp:132-136 | The replies sent are a prefix of those of the sequential store to the requests in order of arrival |
| Pipeline.QuiescentPipelineHasAnsweredAll | src/host/host.cpp:132-136 | Once nothing is on its way every request is answered |
| Pipeline.ReadSeesLastWrite | src/enclave/memtable_stage.cpp:27-53 | A READ gives the value of the last earlier WRITE of its key that passed, or READ_FAIL if there is none |
| Pipeline.EndToEnd | src/enclave/io_stage.cpp:26-90 | For well-formed requests reply n goes to the address and port of request n with its number; a READ is answered with the value in the last earlier WRITE of its key that was itself answered WRITE_PASS, or READ_FAIL; a WRITE is answered WRITE_PASS, unless both tables are frozen, and then its pair is in the map later READs see, or WRITE_FAIL, and then nothing changed |
| Pipeline.EndToEndAmongOthers | src/enclave/io_stage.cpp:26-50 | The same for whatever arrives: garbled datagrams and unknown commands are dropped, unless the `type` that nothing set makes them a READ or WRITE of the empty key |
| Pipeline.StagesAnswerAll | src/host/host.cpp:127-136 | From any state of any run the stages by their own steps answer everything that has arrived, also over queues of one element |
| QueuedPipeline.StepRefines | src/host/host.cpp:127-136 | With the slot protocol in place of the four queues, every load and store is one step of the pipeline over bounded queues or changes nothing there |
| QueuedPipeline.RunRefines | src/host/host.cpp:127-136 | Every run over the slot protocol stands for a run over bounded queues of the same capacity |
| QueuedPipeline.QueuedRepliesInOrder | src/host/host.cpp:132-136 | Whatever the interleaving of the loads and stores of the queues, the replies sent are a prefix of those of the sequential store in order of arrival |
| QueuedPipeline.QueuedEndToEnd | src/enclave/io_stage.cpp:26-90 | Over the slot protocol too reply n answers request n as EndToEnd says |
| QueuedPipeline.QueuedEndToEndAmongOthers | src/enclave/io_stage.cpp:26-50 | The same for whatever arrives, over the slot protocol |
| QueuedPipeline.QueuedStagesAnswerAll | src/host/host.cpp:127-136 | From any state of any run further loads, stores and work of the stages answer everything that has arrived |
| Pipeline.RefusedForever | src/enclave/memtable_stage.cpp:27-53 | After one refused WRITE every WRITE is refused |
| FlushFlag.FlagIsRaised | src/enclave/kvs.cpp:55-67 | The flag is up exactly if some command raised it |
| FlushFlag.FlagUntouchedExactly | src/enclave/kvs.cpp:55-67 | No command touches the flag exactly if no WRITE of a new key takes the bytes written so far to the threshold |
| FlushFlag.UntouchedPrefixPasses | src/enclave/memtable_stage.cpp:27-53 | Up to that command every WRITE passes, with the text WRITE_PASS, and every READ gives the last value sent for its key |
| FlushFlag.UntouchedPrefixAnswered | src/enclave/io_stage.cpp:67-90 | The same by datagrams and replies alone: up to the first request that takes the bytes sent to the threshold with a new key, every WRITE is answered WRITE_PASS and every READ with the last value sent for its key |
| FlushFlag.ThirdWriteIsRefused | src/enclave/kvs.cpp:55-59 | A list of commands whose third WRITE is answered WRITE_FAIL |
| Pipeline.InputStage | src/enclave/io_stage.cpp:26-50 | The loop decodes the contexts it pops, dropping those that do not parse |
| Pipeline.Serve | src/enclave/memtable_stage.cpp:30-47 | One round serves one command on the store |
| Pipeline.MemtableStage | src/enclave/memtable_stage.cpp:15-53 | The loop gives the sequential machine's results |
| Pipeline.OutputStage | src/enclave/io_stage.cpp:67-90 | The loop maps statuses to reply texts |
| Murmur.RotlInverts | src/util/MurMurHash3.cpp:59-62 | A rotation is undone by the rotation by the rest of the word |
| Murmur.Fmix64Inverts | src/util/MurMurHash3.cpp:101-110 | fmix64 is invertible |
| Murmur.StepInverts | src/util/MurMurHash3.cpp:293-305 | A body step determines the state before it from the block, and the block from that state |
| Murmur.TailShowsWords | src/util/MurMurHash3.cpp:310-331 | The tail step determines the words of the tail |
| Murmur.TailMixesAsBlock | src/util/MurMurHash3.cpp:310-331 | The tail mixes each word it has into the state as a block does, and leaves the half for which it has none |
| Murmur.FinalInverts | src/util/MurMurHash3.cpp:336-351 | Finalization is invertible |
| Murmur.OneChunkNeverCollides | src/util/MurMurHash3.cpp:275-352 | Keys of the same length that differ only within one aligned group of 16 bytes never collide |
| Murmur.ShortKeysNeverCollide | src/util/MurMurHash3.cpp:275-352 | No two keys of the same length up to 16 collide |
| Murmur.TailWord | src/util/MurMurHash3.cpp:310-330 | The fall-through cases read the bytes as a little-endian word |
| Murmur.MurmurHash3x64128 | src/util/MurMurHash3.cpp:275-352 | Writes the hash to the output buffer and nothing else |
| MurmurAnswers.HelloAnswer | src/util/MurMurHash3.cpp:275-352 | The hash of "hello" with seed 0 is cbd8a7b341bd9b02, 5b1e906a48ae1d19 |
| MurmurAnswers.LetterUnseededAnswer | src/util/MurMurHash3.cpp:275-352 | The hash of "a" with seed 0 is 85555565f6597889, e6b53a48510e895a |
| MurmurAnswers.LetterAnswer | src/enclave/memtable.h:16-23 | The hash of "a" with the seed of the tables is 879147ac3873735f, 3409cc7465cda4ad |
| MurmurAnswers.AlphabetAnswer | src/util/MurMurHash3.cpp:275-352 | The hash of the 26 letters, a block and a tail of ten bytes, with the seed of the tables is a43394189874fd34, ab6784c98fbfc10f |

## Left out

* Weak memory orders, fences and alignment: every model is sequentially consistent.
* Constructors, moves and assignments of elements that throw, destructors, and the debugging branches.
* src/enclave/concurrentqueue.h, which is the same code as src/util/concurrentqueue.h.
* Bulk enqueue of explicit producers, consumer tokens and their rotation, and moving or swapping queues.
* An explicit producer whose first index allocation failed, and its per-element empty flags: a block counts its dequeued elements, as for larger block sizes.
* ImplicitProducers.ImplicitProducer.Enqueue: one call is one step; ConcurrentLookup has the stores of the index and the loads of a lookup as single steps, and leaves out the elements and the limits.
* ImplicitProducers.ImplicitProducer.Dequeue: the optimistic counters are the subject of OptimisticDequeue; here a claim needs tickets that are there.
* ImplicitProducers.ImplicitProducer.DequeueBulk: with `max` 0 it returns before the lookup; that call is the subject of BlockCounts, where counting the elements of a block, clearing its entry and giving it back are one step.
* Several producers share one pool of blocks in the source; BlockStorage has one producer and the pool. The free list behind the pool is the subject of FreeList and is a last-in-first-out sequence in BlockStorage.
* ProducerTables.ProducerTable.GetOrAdd: one call is one step, so that the resize flag is never found taken and the loop around the insertion is passed once; the interleaved call is the subject of ConcurrentTable.
* ConcurrentTable.ProbingEnds: threads do not exit, so there are no tombstones and no producer is recycled.
* FreeList.RunKeepsInv: needs fewer than 2^31 - 1 threads, so that the count fits its 31 bits.
* LightweightSemaphore.RunKeepsInv: needs fewer than 2^31 threads; the count itself does not wrap at 2^63.
* BlockingQueue.RunKeepsInv: the inner queue is one sequence per producer, and an inner operation on one of them is one step.
* SpscQueue.BoundedFifo: capacities up to 2^31, all that the constructor makes; the element type's NIL value plays no role in this queue.
* KVStores.KVStore.Put: `flush_sema` is a field of the store; in the source it is a pointer that the stages never set (FlushFlag.FlagUntouchedExactly says which commands come before it is used).
* MemTables.MemTable.Dump: the order of the pairs is that of the hash table, which is arbitrary here.
* The record that a flush writes, the persistent store and its index: commented out in the source.
* Sockets, protocol buffers, the sizes of request buffers, freeing of memory and the enclave boundary: a datagram arrives parsed or not, with as many bytes as it says.
* Murmur.MurmurHash3x64128: reads words in little-endian order and takes lengths an `int` can hold; the 32-bit variants of the hash are not modelled.
* src/util/bloom_filter.cpp, src/util/encoding.h, src/util/bufpool.h, spin locks, barriers and mutex queues, and src/util/INIReader.h: only easy members.
