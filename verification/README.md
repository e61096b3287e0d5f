# A Dafny model of the RT-Thread kernel

This project models the part of the RT-Thread kernel that is hard to get right
and proves what it promises for every input and every run. Each source file that
updates state in place is modelled by classes with the same fields and the same
branches; each class is proved against value-level specification functions, and
the laws are proved about those.

**Waiting and waking.** Every stretch between disabling and enabling interrupts is
one step of a transition system. Blocking calls are several steps: look and
suspend, be resumed, look again; the message queue also copies its bytes in steps
of their own. Mailbox, message queue, memory pool, event, mutex and semaphore each
have an invariant kept by every step, and so by every interleaving.

**Memory.** Three allocators: `mem.c` and `memheap.c` as blocks that tile a pool,
with headers and rings as pointers beneath, and `slab.c` as page runs, zones of
chunks and page descriptors. Reallocation is proved down to the bytes.

**Time and scheduling.** The timer skip list is a plain sorted list with shortcuts;
the check fires exactly what is due. The ready bitmap is an index of the ready
lists; both find-first-set forms compute the least set bit; a ready thread gets its
turn within the ticks of those ahead of it. On several CPUs the global lock is
handed over by context switches without ever having two holders.

## Main results

- `MessageQueue.EveryRunKeepsInv`, `MessageQueue.EveryRunKeepsOrder`, `MessageStory.DeliveryCarriesTheSendersBytes`: in every interleaving each node is in one place, each linked message is delivered once or dropped by a reset, in its order, urgent ones in front, with the bytes of the call that sent it and as many as the receiver asked for; no wake-up is lost.
- `Mailbox.EveryRunKeepsInv`, `Mailbox.EveryRunKeepsOrder`, `MailboxStory.AnswersAreTheLog`, `MemPool.EveryRunKeepsInv`, `MemPool.NobodySharesABlock`: no mail lost or overwritten, receivers are answered what was posted, no block lost or shared, no wake-up lost.
- `Event.EveryRunKeepsInv`, `Event.EventObject.SendBits`, `Event.ClearedBitsGoToOne`: no suspended thread could go on; a send is a left fold of immediate receives. `EventFlags.SendFlags`: which flags are left, bit by bit.
- `Mutex.EveryRunKeepsInv`, `Mutex.OwnerIsUrgent`: priority inheritance with one mutex to a thread. `MutexNesting.InversionFreeIff`, `MutexNesting.RestoresOwnPriorityIff`: with any number of them, a run is free of inversion exactly if every blocking take and every last release meets its guard, and a release restores a thread's own priority exactly if it ran at it when it acquired the mutex. `MutexLedger.HeldAsOftenAsTaken`: the hold count is the calls.
- `Semaphore.TimeoutFindsSleeper`, `Semaphore.TokensAreConserved`, `Semaphore.ReturnKeepsInv`, `SemaphoreStory.SuccessesAreCovered`: timed waits end once, tokens balance, and a take succeeds without a token exactly after a direct resume of its thread.
- `CpusLock.OneHolder`, `CpusLock.SwitchMovesLock`, `CpusCounts.SwitchedOutWithNothingOpen`: one holder of the global lock across all CPUs and switches; by the calls it has made, nobody is switched out of a critical section or with a spinlock.
- `SmallMem.EveryRunIsGood`, `SmallMem.AllocIsFirstFit`, `MemHeap.EveryRunIsGood`, `MemHeap.AllocFailsExactlyWhen`: tiling, coalescing, accounting and exact peaks; when allocation fails, exactly. `SmallMem.AllocTakesLittle`, `MemHeap.AllocTakesLittle`: no more is taken than must be. `SmallMemHeap.TinyHeapScansForever`: when it never returns.
- `SmallMem.ReallocReplaces`, `MemHeap.ReallocReplaces`, `SlabFree.ReallocReplaces`: when realloc fails, exactly, and what it leaves of the other blocks. `SmallMemHeap.SmallHeap.Realloc`, `MemHeapPool.Pool.Realloc`, `SlabHeap.Allocator.Realloc`: the same in place, with headers and links written into the memory: bytes kept, others untouched, failure harmless.
- `SlabFree.EveryRunKeepsInv`, `SlabAddresses.PointerLeadsHome`, `SlabAddresses.LiveBlocksDisjoint`, `SlabPages.AllocThenFree`: zones, descriptors and the canonical page list. `SlabEconomy.EveryRunIsTidy`: no page lost, at most one empty zone in a list.
- `SkipList.TimerList.Start`, `SkipList.SearchAgreesIff`: the skip list is stable linear insertion while deadlines span less than half the tick range, and the exact condition under which its search agrees with a linear scan whatever the upper rows; `SkipList.LateStartGoesAstray` is a history outside it.
- `Timers.TimerService.Check`, `Timers.ZeroIntervalNeverEnds`, `Periodic.PeriodicTimersKeepTime`: what a check fires, exactly when it ends, and at which ticks of a run a periodic timer fires.
- `Ffs.FormsAgree`, `ReadyQueue.HighestIs`, `Scheduler.EveryRunKeepsInv`, `Scheduler.ScheduleRunsTheMostUrgent`, `SchedulerEffects.WhoRunsNext`: the bitmap index and the choice of the running thread.
- `RoundRobin.TurnComesInTime`: a ready thread at least as urgent as the running one, and as every other ready one, is dispatched within the ticks of those ahead of it.

## Reading guide

- `common`, `sequences`, `links`, `bits`, `words`, `arithmetic`, `alignment`, `ticks`: shared vocabulary.
- `wait_queue`, `delivery_order`, `mailbox`, `mailbox_story`, `message_queue`, `message_story`, `mempool`, `event`, `event_flags`, `mutex`, `mutex_nesting`, `mutex_ledger`, `semaphore`, `semaphore_story`: objects that block, and what their callers see of them.
- `tiling`, `heap_bytes`, `heap_shape`, `small_mem`, `small_mem_heap`, `memheap`, `memheap_links`, `memheap_pool`: block allocators.
- `slab_sizes`, `slab_pages`, `slab_zones`, `slab_free`, `slab_addresses`, `slab_bytes`, `slab_economy`, `slab_heap`: the slab allocator.
- `skip_list`, `timers`, `periodic`: timers.
- `ffs`, `ready_queue`, `scheduler`, `scheduler_effects`, `kernel`, `round_robin`: one core.
- `cpus_lock`, `cpus_counts`: several cores.

Conventions: interrupts, clocks, priorities at the moment of a call and callbacks
are parameters; addresses are offsets or page numbers; machine words are numbers
with their width written out, except event sets, which are 32-bit vectors.
Records of a run that only the laws speak of (what was sent, granted, received) are
gathered in a `Log` or `History` beside the kernel's own fields. Time-outs come as a step that may happen whenever a thread waits with a timer.

## Model

| member | source | states |
|---|---|---|
| `WaitQueue.Enqueue` | rt-thread/src/ipc.c:121-168 | the list walk gives the insertion by list order: at the end, or before the first strictly less urgent waiter |
| `WaitQueue.InsertKeepsOrder` | rt-thread/src/ipc.c:137-160 | a list sorted by priority stays sorted, and the newcomer stands behind exactly the waiters at least as urgent |
| `WaitQueue.InsertKeepsDistinct` | rt-thread/src/ipc.c:121-168 | no thread is in a list twice, and the list holds the old waiters and the newcomer |
| `WaitQueue.WakeKeeps` | rt-thread/src/ipc.c:190-203 | resuming the head pays for one more item: while anyone waits, items never outnumber the resumed threads that have yet to look |
| `WaitQueue.RecheckKeeps` | rt-thread/src/ipc.c:2233-2363 | a thread that looks again takes an item and its own promise with it, so the balance holds even when the item was stolen |
| `WaitQueue.BlockKeeps` | rt-thread/src/ipc.c:121-168 | suspending on an empty object keeps the balance whatever the thread had been promised |
| `WaitQueue.ExpireKeeps` | rt-thread/src/thread.c:127-156 | a timeout takes a thread from the list without upsetting the balance |
| `DeliveryOrder.SendGood` | rt-thread/src/ipc.c:2856-2873 | sending keeps the order: urgent items in front, latest first, then ordinary ones, earliest first; ordinary items come out in the order they went in, none overtaken by a later one; each sent item is received, waiting or dropped, once |
| `DeliveryOrder.TakeGood` | rt-thread/src/ipc.c:3149-3162 | so does taking the first item |
| `DeliveryOrder.DropGood` | rt-thread/src/ipc.c:3235-3259 | so does dropping everything that waits |
| `DeliveryOrder.NextOut` | rt-thread/src/ipc.c:2990-3002 | the next item out is the latest urgent one, or, when none is urgent, the earliest of all |
| `DeliveryOrder.PlainIsFifo` | rt-thread/src/ipc.c:2856-2873 | where nothing was urgent and nothing dropped, what came out followed by what waits is what was sent, in that order |
| `MessageQueue.StepKeepsInv` | rt-thread/src/ipc.c:2737-3263 | every atomic stretch keeps: each node in exactly one of the free list, the queue and one copy in progress; queued bytes are their sender's; no lost wake-up on either side; linked messages are received, queued or dropped by a reset |
| `MessageQueue.EveryRunKeepsInv` | rt-thread/src/ipc.c:2737-3263 | the same after every interleaving of senders, urgent senders, receivers, timeouts and resets |
| `MessageStory.SendAnswers` | rt-thread/src/ipc.c:2768-2844 | a send is refused exactly for too many bytes, gets the first free node exactly if there is one, and otherwise finds the queue full or waits, by urgency and timeout; nobody but the sender is touched |
| `MessageStory.ReceiveAnswers` | rt-thread/src/ipc.c:3075-3162 | a receive gets the first queued node exactly if there is one, and otherwise times out or waits in its place in the list |
| `MessageStory.OtherAnswers` | rt-thread/src/ipc.c:2856-3263 | linking resumes the first receiver, releasing the first sender, expiry takes one waiter off and a reset all; nobody else moves |
| `MessageStory.OnlyResetDrops` | rt-thread/src/ipc.c:3235-3259 | only a reset drops messages, and it drops what is queued |
| `MessageStory.EveryRunAgrees` | rt-thread/src/ipc.c:2737-3263 | what an observer of the calls and their answers writes down agrees with the queue after every run: who holds which node for what, what was linked, in which order receivers were served |
| `MessageStory.DeliveryCarriesTheSendersBytes` | rt-thread/src/ipc.c:3149-3197 | in every run a delivery hands over exactly as many bytes as its receiver asked for and a node holds; they are the bytes of the send call that linked the message, up to their length; the receiver whose turn it is gets the message whose turn it is |
| `MessageStory.EmptyAgrees` | rt-thread/src/ipc.c:2500-2525 | the story of a fresh queue is empty |
| `MessageQueue.EveryRunKeepsOrder` | rt-thread/src/ipc.c:2856-3263 | after every run, urgent sends and resets included: the queue is the urgent messages, latest first, then the ordinary ones, earliest first; ordinary messages are received in link order and none is overtaken by a later one; a receiver is given the latest urgent message or else the earliest |
| `MessageQueue.PlainRunsAreFifo` | rt-thread/src/ipc.c:2856-2873 | a corollary: without urgent sends and resets messages are delivered in the order they were linked |
| `MessageQueue.NodesAreConserved` | rt-thread/src/ipc.c:2500-2525 | queued, free and in-copy nodes always add up to the capacity |
| `MessageQueue.EmptyIsGood` | rt-thread/src/ipc.c:2500-2525 | a fresh queue meets the invariant |
| `MessageQueue.Queue.constructor` | rt-thread/src/ipc.c:2500-2525 | threads every node on the free list of a fresh queue |
| `MessageQueue.Queue.Send` | rt-thread/src/ipc.c:2768-2844 | takes a free node or suspends the sender, as the specification step does |
| `MessageQueue.Queue.CopyIn` | rt-thread/src/ipc.c:2846-2855 | one byte of the unlocked copy into the node |
| `MessageQueue.Queue.Link` | rt-thread/src/ipc.c:2856-2897 | links the node at the tail, or at the head for an urgent one, and wakes a receiver |
| `MessageQueue.Queue.LinkLast` | rt-thread/src/ipc.c:2856-2873 | head, tail and next pointers describe the queue with the node appended |
| `MessageQueue.Queue.LinkFirst` | rt-thread/src/ipc.c:2990-3002 | head, tail and next pointers describe the queue with the node in front |
| `MessageQueue.Queue.Receive` | rt-thread/src/ipc.c:3075-3162 | unlinks the first message or suspends the receiver |
| `MessageQueue.Queue.CopyOut` | rt-thread/src/ipc.c:3164-3171 | one byte of the unlocked copy out of the node |
| `MessageQueue.Queue.Release` | rt-thread/src/ipc.c:3172-3197 | gives the node back to the free list and wakes a sender |
| `MessageQueue.Queue.Expire` | rt-thread/src/thread.c:127-156 | a waiting sender or receiver times out |
| `MessageQueue.Queue.Reset` | rt-thread/src/ipc.c:3215-3263 | moves every queued node to the free list and lets every waiter go with an error |
| `Mailbox.StepKeepsInv` | rt-thread/src/ipc.c:1986-2413 | every step keeps: at most `size` mails, no lost wake-up for receivers or senders, accepted mail is received, waiting or dropped by a reset, each once |
| `Mailbox.EveryRunKeepsInv` | rt-thread/src/ipc.c:1986-2413 | the same after every run |
| `Mailbox.QuietMeansNothingToDo` | rt-thread/src/ipc.c:2022-2115 | when nobody resumed has yet to look, receivers wait only on an empty box and senders only on a full one |
| `Mailbox.EveryRunKeepsOrder` | rt-thread/src/ipc.c:2080-2413 | after every run, urgent mail and resets included: urgent mail in front, latest first, then ordinary mail, earliest first; ordinary mail is received in the order it was accepted; a receiver is given the latest urgent mail or else the earliest |
| `Mailbox.PlainRunsAreFifo` | rt-thread/src/ipc.c:2080-2096 | a corollary: without urgent mail and resets, what was accepted is what was received followed by what is in the box, in order |
| `MailboxStory.SendAnswers` | rt-thread/src/ipc.c:1986-2115 | a send is accepted exactly if the box is not full, and otherwise finds it full or waits, by its timeout; an accepted one resumes the first receiver and nobody else |
| `MailboxStory.UrgentAnswers` | rt-thread/src/ipc.c:2159-2211 | an urgent send is accepted exactly if the box is not full |
| `MailboxStory.ReceiveAnswers` | rt-thread/src/ipc.c:2233-2363 | a receive gets mail exactly if there is some, and otherwise times out or waits; a successful one resumes the first sender and nobody else |
| `MailboxStory.OtherAnswers` | rt-thread/src/ipc.c:2381-2413 | a reset empties box and lists; expiry takes one waiter off |
| `MailboxStory.AnswersAreTheLog` | rt-thread/src/ipc.c:1986-2413 | in every run the values the receivers were answered are what was received, in order, and what was sent are the arguments of the accepted calls; only a reset drops any |
| `MailboxStory.WhatGoesInComesOut` | rt-thread/src/ipc.c:1986-2363 | seen from outside, without urgent mail and resets: receivers are handed the accepted values, in order, each once, and at most `size` are outstanding |
| `Mailbox.Box.constructor` | rt-thread/src/ipc.c:1775-1803 | an empty ring |
| `Mailbox.Box.Append` | rt-thread/src/ipc.c:2080-2096 | writes at `in_offset`; the contents gain the mail at the end; the overflow branch is not reached |
| `Mailbox.Box.Prepend` | rt-thread/src/ipc.c:2172-2192 | steps `out_offset` back and writes there; the contents gain the mail in front |
| `Mailbox.Box.Pop` | rt-thread/src/ipc.c:2328-2340 | reads at `out_offset`; the contents lose their first mail |
| `Mailbox.Box.Send` | rt-thread/src/ipc.c:1986-2115 | one pass of the waiting send: appends, suspends, or refuses |
| `Mailbox.Box.Urgent` | rt-thread/src/ipc.c:2159-2211 | prepends or refuses a full box |
| `Mailbox.Box.Receive` | rt-thread/src/ipc.c:2233-2363 | one pass of the waiting receive: pops, suspends, or refuses |
| `Mailbox.Box.Expire` | rt-thread/src/thread.c:127-156 | a waiting thread times out |
| `Mailbox.Box.Reset` | rt-thread/src/ipc.c:2381-2413 | empties the box and lets every waiter go with an error |
| `MemPool.StepKeepsInv` | rt-thread/src/mempool.c:319-465 | every step keeps: each block free or handed out, once; `block_free_count` the length of the free list; no lost wake-up |
| `MemPool.EveryRunKeepsInv` | rt-thread/src/mempool.c:319-465 | the same after every run |
| `MemPool.SleepersAreOutnumbered` | rt-thread/src/mempool.c:319-465 | while an allocator waits, free blocks are at most the allocators resumed and yet to look; free and handed-out blocks add up to the total |
| `MemPool.TotalIsConstant` | rt-thread/src/mempool.c:319-465 | the number of blocks never changes |
| `MemPool.FreshIsGood` | rt-thread/src/mempool.c:89-136 | a fresh pool meets the invariant |
| `MemPool.AllocAnswers` | rt-thread/src/mempool.c:319-407 | an allocation gets the first free block exactly if there is one, a block nobody has, and otherwise times out or waits |
| `MemPool.OtherAnswers` | rt-thread/src/mempool.c:415-465 | a release puts the block first in the free list and resumes the first waiter; expiry takes one waiter off |
| `MemPool.NobodySharesABlock` | rt-thread/src/mempool.c:319-465 | in every run the blocks handed out are those callers were given and have not given back, and none of them is given to another |
| `MemPool.Pool.constructor` | rt-thread/src/mempool.c:89-136 | threads the free list through the blocks, in order |
| `MemPool.Pool.Alloc` | rt-thread/src/mempool.c:319-407 | one pass: unlinks the first free block, suspends, or refuses |
| `MemPool.Pool.Free` | rt-thread/src/mempool.c:415-465 | links the block in front and wakes the first waiter |
| `MemPool.Pool.Expire` | rt-thread/src/thread.c:127-156 | a waiting allocator times out |
| `Event.StepKeepsInv` | rt-thread/src/ipc.c:1435-1726 | every step keeps: no suspended thread's condition is met by the current set, and a resumed thread holds bits that answer its request |
| `Event.EveryRunKeepsInv` | rt-thread/src/ipc.c:1435-1726 | the same after every run of sends, receives, timeouts, resets and returns |
| `Event.SendKeepsInv` | rt-thread/src/ipc.c:1435-1524 | after one send no waiter left behind could go on, though earlier waiters cleared bits |
| `Event.ReceiveKeepsInv` | rt-thread/src/ipc.c:1560-1680 | an immediate receive gets bits that answer its request and leaves every waiter unsatisfied |
| `Event.FoldServesAll` | rt-thread/src/ipc.c:1455-1514 | offering the set to the waiters one after the other, each as if it came to receive just then, leaves only unsatisfied ones |
| `Event.ClearedBitsGoToOne` | rt-thread/src/ipc.c:1500-1512 | of the receivers of one send, what a clearing one is given none behind it is given |
| `EventFlags.ReceiveAnswers` | rt-thread/src/ipc.c:1560-1655 | how a receive is answered, exactly; it leaves every flag outside its request as it was, takes all of its own if it clears, and none otherwise |
| `EventFlags.OfferIsReceive` | rt-thread/src/ipc.c:1466-1512 | a waiter whose turn has come is served as by an immediate receive |
| `EventFlags.SendFlags` | rt-thread/src/ipc.c:1435-1524 | a send, flag by flag: of flags no served clearing waiter asked for, those are set that were set or sent; of those one asked for, none; nothing else is ever set |
| `EventFlags.OtherAnswers` | rt-thread/src/ipc.c:1660-1726 | an empty send changes nothing, a timeout takes one waiter off, a reset clears all, a return hands over the bits kept |
| `Bits.DropIs` | rt-thread/src/ipc.c:1500-1505 | clearing leaves the other bits as they were and none of the cleared ones |
| `Bits.OrIs` | rt-thread/src/ipc.c:1451-1455 | a sent set and the old set are both in the new one, and nothing else |
| `Event.EventObject.SendBits` | rt-thread/src/ipc.c:1435-1524 | the walk along the list is the left fold of immediate receives over the waiters in list order; an empty set is refused |
| `Event.EventObject.Serve` | rt-thread/src/ipc.c:1466-1512 | narrowing, clearing only what is delivered and resuming one waiter leaves the set and the bits an immediate receive would |
| `Event.EventObject.ReceiveBits` | rt-thread/src/ipc.c:1560-1655 | takes bits, suspends, times out or refuses an empty request; all-of wins over any-of |
| `Event.EventObject.Resume` | rt-thread/src/ipc.c:1660-1680 | a resumed receiver reports bits that answer its request |
| `Event.EventObject.ResetEvent` | rt-thread/src/ipc.c:1698-1726 | clears the set and lets every waiter go |
| `Bits.DropWhatIsThere` | rt-thread/src/ipc.c:1480-1505 | clearing the delivered bits and clearing all requested bits leave the same set |
| `Mutex.TakeKeepsInv` | rt-thread/src/ipc.c:909-1047 | a take keeps the invariant and succeeds exactly for a free mutex or its owner below the nesting limit; the limit is the only overflow |
| `Mutex.ReleaseKeepsInv` | rt-thread/src/ipc.c:1085-1193 | a release keeps the invariant, is refused exactly to non-owners, and the last one restores the owner's own priority and hands the mutex to the first waiter; the overflow branches are not reached |
| `Mutex.BlockKeepsInv` | rt-thread/src/ipc.c:986-1020 | lending a priority and joining the list keep the invariant: the owner runs at the most urgent of its own and the lent priorities, waiters are sorted, first come first among equals |
| `Mutex.ExpireKeepsInv` | rt-thread/src/thread.c:127-156 | a timeout takes the thread from the list and keeps the invariant |
| `Mutex.StepKeepsInv` | rt-thread/src/ipc.c:909-1193 | every step keeps: value 1, no owner and hold 0 coincide; owner at least as urgent as every waiter; waiters sorted and first come first served among equals; a blocked take that was answered is the owner; threads owning nothing run at their own priority |
| `Mutex.EveryRunKeepsInv` | rt-thread/src/ipc.c:909-1193 | the same after every run in which no thread deals with two mutexes at once |
| `Mutex.OwnerIsUrgent` | rt-thread/src/ipc.c:992-999 | in every such run the owner is at least as urgent as anyone who waits for it |
| `Mutex.FreshIsGood` | rt-thread/src/ipc.c:736-759 | initialised mutexes meet the invariant |
| `Mutex.NestedMutexesInvert` | rt-thread/src/ipc.c:1123-1134 | a run with two owned mutexes that ends with the owner less urgent than a waiter |
| `Mutex.MutexSet.constructor` | rt-thread/src/ipc.c:736-759 | free mutexes, threads at their own priorities |
| `Mutex.MutexSet.TakeMutex` | rt-thread/src/ipc.c:909-1047 | follows the branches of the take |
| `Mutex.MutexSet.Suspend` | rt-thread/src/ipc.c:992-1004 | lends the priority, then inserts by priority |
| `Mutex.MutexSet.ReleaseMutex` | rt-thread/src/ipc.c:1085-1193 | follows the branches of the release |
| `Mutex.MutexSet.Timeout` | rt-thread/src/thread.c:127-156 | a waiter leaves the list |
| `MutexNesting.StepKeepsShape` | rt-thread/src/ipc.c:909-1193 | with any number of mutexes to a thread every step keeps: an owner and its waiters are known, distinct threads, and no thread waits for two mutexes |
| `MutexNesting.BlockIff` | rt-thread/src/ipc.c:986-1020 | a thread that blocks leaves every owner at least as urgent as its waiters if and only if, wherever the owner it lends to waits itself, that owner is at least as urgent as the lent priority |
| `MutexNesting.ReleaseIff` | rt-thread/src/ipc.c:1123-1170 | a last release does so if and only if no waiter of another mutex of the releaser is more urgent than the priority it falls back to, and the heir is the most urgent of the waiters |
| `MutexNesting.StepKeepsUrgentIff` | rt-thread/src/ipc.c:909-1193 | every step, with any number of mutexes to a thread: urgency survives exactly if the step meets its guard; taking at once, releasing in part, timeouts and returns have none |
| `MutexNesting.InversionFreeIff` | rt-thread/src/ipc.c:909-1193 | a run is free of priority inversion if and only if each of its steps meets its guard |
| `MutexNesting.SingleIsGuarded` | rt-thread/src/ipc.c:909-1193 | with one mutex to a thread every step meets its guard |
| `MutexNesting.AcquiringRecords` | rt-thread/src/ipc.c:958-968 | acquiring a mutex, at once or by inheritance, records the priority of that moment |
| `MutexNesting.RestoresOwnPriorityIff` | rt-thread/src/ipc.c:1123-1134 | from acquisition over any run to the last release: the release leaves the thread at its own priority if and only if it ran at that priority when it acquired the mutex |
| `MutexNesting.HeldIsReached` | rt-thread/src/ipc.c:909-1020 | three takes reach the state in which an owner waits for another mutex |
| `MutexNesting.LendingStopsShort` | rt-thread/src/ipc.c:986-999 | from there a blocking take with no release at all leaves an owner less urgent than its waiter |
| `MutexLedger.TakeAnswers` | rt-thread/src/ipc.c:909-1047 | how a take is answered, exactly, with any number of mutexes to a thread; a refusal changes nothing |
| `MutexLedger.TakenIs` | rt-thread/src/ipc.c:930-968 | a successful take raises the hold by one and changes no priority |
| `MutexLedger.WaitingIs` | rt-thread/src/ipc.c:986-1020 | a thread that waits joins the list in its place, and the owner's priority becomes the more urgent of the two; nobody else's changes |
| `MutexLedger.ReleaseAnswers` | rt-thread/src/ipc.c:1085-1193 | a partial release lowers the hold by one and does nothing else; the last one sets the owner back and hands over to the first waiter or frees the mutex |
| `MutexLedger.OtherAnswers` | rt-thread/src/thread.c:127-156 | a timeout takes one waiter off and changes no priority |
| `MutexLedger.HeldAsOftenAsTaken` | rt-thread/src/ipc.c:909-1193 | in every run a mutex is held as often as its owner's takes less its releases, counted from calls and answers, plus a granted take yet to return; all others have released it as often as taken |
| `MutexLedger.FreshAgrees` | rt-thread/src/ipc.c:736-759 | initialised mutexes agree with an empty ledger |
| `Semaphore.TakeKeepsInv` | rt-thread/src/ipc.c:479-564 | a take keeps the invariant |
| `Semaphore.ReleaseKeepsInv` | rt-thread/src/ipc.c:601-649 | a release keeps the invariant and is refused exactly at the largest value |
| `Semaphore.FireKeepsInv` | rt-thread/src/thread.c:127-156 | an armed thread timer finds its thread suspended, and the timeout keeps the invariant |
| `Semaphore.SleepKeepsInv` | rt-thread/src/thread.c:568-601 | sleeping keeps the invariant |
| `Semaphore.WakeKeepsInv` | rt-thread/src/thread.c:884-918 | a direct resume of any thread, asleep or blocked in a take, keeps the invariant |
| `Semaphore.ResetKeepsInv` | rt-thread/src/ipc.c:667-699 | a reset keeps the invariant and starts a new account |
| `Semaphore.ReturnKeepsInv` | rt-thread/src/ipc.c:551-564 | a blocked take reports success exactly when a release granted it a token or its thread was resumed directly, and success without a token exactly in the second case |
| `Semaphore.ForcedBy` | rt-thread/src/thread.c:884-918 | a blocked take comes to return without a token by exactly one step: a direct resume of its thread |
| `Semaphore.StepKeepsInv` | rt-thread/src/ipc.c:479-699 | every step, direct resumes included, keeps: timers armed only for suspended threads; waiters only at value 0; start plus releases equals value plus takes; tokens handed out are returned takes plus grants under way; direct resumes are unpaid successes plus those under way |
| `Semaphore.EveryRunKeepsInv` | rt-thread/src/ipc.c:479-699 | the same after every run |
| `Semaphore.TimeoutFindsSleeper` | rt-thread/src/thread.c:127-156 | in every run the timeout callback meets a suspended thread |
| `Semaphore.TokensAreConserved` | rt-thread/src/ipc.c:479-649 | in every run the tokens balance, successes without a token are exactly the direct resumes that have returned, and nobody waits while there is a token |
| `Semaphore.DirectResumeNeedsNoToken` | rt-thread/src/thread.c:884-918 | one such run: a thread waits for an empty semaphore, is resumed directly and reports success |
| `SemaphoreStory.TakeAnswers` | rt-thread/src/ipc.c:479-549 | a take succeeds exactly if the value is positive, times out exactly at value 0 without waiting, and otherwise waits in its place, with a timer exactly if the time is positive |
| `SemaphoreStory.ReleaseAnswers` | rt-thread/src/ipc.c:601-649 | a release resumes the first waiter and no other, and only without one raises the value; it is refused exactly at the largest |
| `SemaphoreStory.ThreadAnswers` | rt-thread/src/thread.c:127-156 | a timer, a sleep or a direct resume touches its thread and the list that thread is in, and no value |
| `SemaphoreStory.ResetAnswers` | rt-thread/src/ipc.c:667-699 | a reset sets the value cut to 16 bits and sends exactly the waiters away with an error |
| `SemaphoreStory.ReturnAnswers` | rt-thread/src/ipc.c:551-564 | a blocked take reports what resumed it |
| `SemaphoreStory.SuccessesAreCovered` | rt-thread/src/ipc.c:479-649 | over every run without a reset, counted from answers: successful takes, the value and successes on their way add up to what there was, the releases and the direct resumes |
| `Semaphore.Semaphores.constructor` | rt-thread/src/ipc.c:295-319 | initial values, nobody waiting |
| `Semaphore.Semaphores.TakeSem` | rt-thread/src/ipc.c:479-549 | takes, refuses, or suspends with or without a timer |
| `Semaphore.Semaphores.ReleaseSem` | rt-thread/src/ipc.c:601-649 | resumes the first waiter or raises the value |
| `Semaphore.Semaphores.Resume` | rt-thread/src/thread.c:884-918 | a suspended thread leaves its waiting list and its timer is stopped; any other is refused |
| `Semaphore.Semaphores.Expire` | rt-thread/src/thread.c:127-156 | unlinks the thread with a timeout error |
| `Semaphore.Semaphores.Finish` | rt-thread/src/ipc.c:551-564 | reports the error number; success exactly for a grant |
| `Semaphore.Semaphores.ResetSem` | rt-thread/src/ipc.c:667-699 | lets the waiters go one by one with an error and sets the value, cut to 16 bits |
| `CpusLock.StepKeepsInv` | rt-thread/src/cpu.c:20-231 | every step of every CPU keeps: the lock is held exactly by the CPU whose thread asked and no longer spins; `scheduler_lock_nest` is lock plus critical plus spinlock nesting; a thread off every CPU is in no critical section and holds no spinlock |
| `CpusLock.EveryRunKeepsInv` | rt-thread/src/cpu.c:170-231 | the same in every interleaving of the CPUs, through spins, interrupts and switches |
| `CpusLock.OneHolder` | rt-thread/src/cpu.c:170-231 | in every run the lock is held if and only if exactly one CPU holds it |
| `CpusLock.OutgoingIsAtRest` | rt-thread/src/scheduler.c:336-390 | the scheduler-count test lets a thread be switched out only with no critical and no spinlock count |
| `CpusCounts.EveryRunCounts` | rt-thread/src/cpu.c:20-214 | in every run, for every thread: lock, critical and spinlock nesting are the calls that raise them less the calls that lower them, made on the CPU it ran on at the time; likewise the interrupt depth of every CPU |
| `CpusCounts.CountersAreTheCalls` | rt-thread/src/cpu.c:20-214 | from the start on, `cpus_lock_nest` and `scheduler_lock_nest` of every thread, from the calls alone |
| `CpusCounts.SwitchedOutWithNothingOpen` | rt-thread/src/scheduler.c:336-390 | at every switch of every run the outgoing thread has made as many exits as entries of critical sections and as many spinlock releases as takes, and the CPU is in no interrupt |
| `CpusLock.SwitchMovesLock` | rt-thread/src/cpu.c:222-231 | a switch passes the lock to the incoming thread if that had asked for it and otherwise lets it go; other CPUs see no change of holder |
| `CpusLock.SwitchKeepsThreads` | rt-thread/src/scheduler.c:586-641 | both switches keep the counters of all threads in balance |
| `CpusLock.StartIsGood` | rt-thread/src/thread.c:219-220 | zeroed counters meet the invariant |
| `CpusLock.Smp.constructor` | rt-thread/src/thread.c:219-220 | every CPU runs a thread of its own, nothing locked |
| `CpusLock.Smp.CpusLock` | rt-thread/src/cpu.c:170-190 | raises the counters, then spins if this was the first request |
| `CpusLock.Smp.SpinEnds` | rt-thread/src/scheduler.c:871-886 | the spin ends with the lock taken; a critical section raises its own counters only then |
| `CpusLock.Smp.CpusUnlock` | rt-thread/src/cpu.c:199-214 | lowers the counters and lets the lock go with the last request |
| `CpusLock.Smp.GiveUp` | rt-thread/src/scheduler.c:929-938 | the part shared by unlock and leaving a critical section |
| `CpusLock.Smp.Enter` | rt-thread/src/scheduler.c:852-890 | raises lock, scheduler and critical counters, spinning first if needed |
| `CpusLock.Smp.Exit` | rt-thread/src/scheduler.c:914-953 | lowers them and reschedules exactly when nothing is locked any more |
| `CpusLock.Smp.PreemptDisable` | rt-thread/src/cpu.c:20-40 | raises the scheduler count for a spinlock |
| `CpusLock.Smp.PreemptEnable` | rt-thread/src/cpu.c:45-66 | lowers it again |
| `CpusLock.Smp.StatusRestore` | rt-thread/src/cpu.c:222-231 | sets the current thread and lets the lock go unless that thread asked for it |
| `CpusLock.Smp.Schedule` | rt-thread/src/scheduler.c:301-393 | switches exactly when outside interrupts with a scheduler count of one |
| `CpusLock.Smp.IrqLock` | rt-thread/src/scheduler.c:554-567 | the request for the lock at the end of an interrupt |
| `CpusLock.Smp.IrqSchedule` | rt-thread/src/scheduler.c:580-641 | takes the request back from the outgoing thread and switches, or unlocks |
| `Ffs.ByBytesIs` | rt-thread/src/kservice.c:1711-1755 | the byte-table form gives the number of trailing zeros plus one, and zero for zero |
| `Ffs.TinyIs` | rt-thread/src/kservice.c:1687-1709 | the modulo-37 form gives the same |
| `Ffs.FormsAgree` | rt-thread/src/kservice.c:1687-1755 | both forms agree on every 32-bit word and name its least set bit |
| `Ffs.ResidueTable` | rt-thread/src/kservice.c:1687-1694 | the 37-entry table inverts the powers of two modulo 37 |
| `Ffs.TableIs` | rt-thread/src/kservice.c:1711-1729 | every entry of the byte table is the number of trailing zeros of its index |
| `Words.LowestAlone` | rt-thread/src/kservice.c:1706-1709 | `value & (value - 1) ^ value` is the lowest bit of the value alone |
| `ReadyQueue.InsertKeepsIndex` | rt-thread/src/scheduler.c:718-752 | inserting keeps the bits, one or two levels, set exactly for the lists that are not empty |
| `ReadyQueue.RemoveKeepsIndex` | rt-thread/src/scheduler.c:815-845 | so does removing, of a queued thread or of one in no list |
| `ReadyQueue.HighestIs` | rt-thread/src/scheduler.c:169-191 | the priority computed from the bitmap is the least with a non-empty list, and the bitmap is zero exactly when all lists are empty |
| `Scheduler.EnqueueKeepsInv` | rt-thread/src/scheduler.c:718-752 | a thread put into the queue is ready in the list of its priority; the current thread just runs on |
| `Scheduler.ChangePriorityKeepsInv` | rt-thread/src/thread.c:720-773 | a ready thread moves to the list of its new priority |
| `Scheduler.SuspendKeepsInv` | rt-thread/src/thread.c:837-871 | a suspended thread is in no list |
| `Scheduler.StartupKeepsInv` | rt-thread/src/thread.c:353-382 | a started thread is in the list of its priority |
| `Scheduler.DetachKeepsInv` | rt-thread/src/thread.c:394-428 | a detached thread is in no list |
| `Scheduler.ScheduleRunsTheMostUrgent` | rt-thread/src/scheduler.c:423-545 | scheduling keeps lists, bitmap and states in agreement, and with the scheduler unlocked the running thread is at least as urgent as every ready one |
| `Scheduler.SwitchKeepsInv` | rt-thread/src/scheduler.c:442-477 | a thread that does not stay gives way to the head of the most urgent list |
| `Scheduler.TickKeepsInv` | rt-thread/src/clock.c:95-121 | the accounting of a tick keeps everything in agreement |
| `Scheduler.EndSliceKeepsInv` | rt-thread/src/clock.c:115-116 | so does the scheduling at the end of a slice, a step of its own after interrupts were enabled |
| `Scheduler.StepKeepsInv` | rt-thread/src/thread.c:353-918 | every operation keeps: a thread is in list p exactly when ready with priority p, and bits match lists |
| `Scheduler.EveryRunKeepsInv` | rt-thread/src/thread.c:353-918 | the same after any sequence of startup, suspend, resume, timeout, yield, detach, priority change, scheduling, ticks and scheduler locks |
| `SchedulerEffects.OneChanges` | rt-thread/src/thread.c:353-918 | startup, suspend, resume, detach and priority change: the new state and priority of the thread they are about; no other thread changes, nor who runs |
| `SchedulerEffects.OneMoves` | rt-thread/src/scheduler.c:718-845 | that thread joins the end of the list of its priority or leaves its list; all others keep their order |
| `SchedulerEffects.NothingToDo` | rt-thread/src/scheduler.c:423-440 | with the scheduler locked or nobody ready, scheduling changes nothing |
| `SchedulerEffects.WhoRunsNext` | rt-thread/src/scheduler.c:423-545 | exactly when the running thread goes on, who runs otherwise, and where the outgoing thread waits; nobody's ticks change |
| `SchedulerEffects.TickEffect` | rt-thread/src/clock.c:95-121 | a tick takes one from the running slice; the last gives a new slice, the yield mark and a scheduling that is due |
| `Kernel.BootedIsGood` | rt-thread/src/scheduler.c:197-242 | empty lists and zero words meet the invariant |
| `Kernel.Core.constructor` | rt-thread/src/scheduler.c:197-272 | a core running its idle thread |
| `Kernel.Core.InsertThread` | rt-thread/src/scheduler.c:718-752 | appends to the list and sets the bits |
| `Kernel.Core.RemoveThread` | rt-thread/src/scheduler.c:815-845 | unlinks and clears the bits of an empty list |
| `Kernel.Core.HighestThread` | rt-thread/src/scheduler.c:169-191 | returns the head of the least non-empty list |
| `Kernel.Core.Reschedule` | rt-thread/src/scheduler.c:423-545 | follows `rt_schedule`; afterwards the running thread is the most urgent |
| `Kernel.Core.Switch` | rt-thread/src/scheduler.c:461-477 | requeues the outgoing thread if it still runs, then dequeues the incoming one |
| `Kernel.Core.ResumeThread` | rt-thread/src/thread.c:884-918 | a suspended thread becomes ready; others are refused |
| `Kernel.Core.StartThread` | rt-thread/src/thread.c:353-382 | a new thread becomes ready |
| `Kernel.Core.SuspendSelf` | rt-thread/src/thread.c:837-871 | the current thread leaves the running state |
| `Kernel.Core.DetachThread` | rt-thread/src/thread.c:394-428 | the thread leaves the queue and is closed |
| `Kernel.Core.SetPriority` | rt-thread/src/thread.c:720-773 | a ready thread changes lists, any other only its number |
| `Kernel.Core.YieldSelf` | rt-thread/src/thread.c:543-556 | a fresh slice, the yield mark, and scheduling |
| `Kernel.Core.TickIncrease` | rt-thread/src/clock.c:95-121 | the last tick of a slice gives a fresh one, marks the thread as yielding and leaves the scheduling due |
| `Kernel.Core.ScheduleAtEnd` | rt-thread/src/clock.c:115-116 | the scheduling that is due, whatever happened since interrupts were enabled |
| `RoundRobin.StepSpends` | rt-thread/src/clock.c:91-127 | whatever fair step happens, the waiting thread is dispatched, or the ticks left to the running thread and to those ahead of it have not grown, and a tick has taken one |
| `RoundRobin.SwitchSpends` | rt-thread/src/scheduler.c:442-477 | a switch dispatches the head of the list and spends the rest of the running slice |
| `RoundRobin.YieldSpends` | rt-thread/src/thread.c:543-556 | yielding resets the slice yet never delays those that wait |
| `RoundRobin.TickSpends` | rt-thread/src/clock.c:108-120 | a tick takes exactly one from the budget |
| `RoundRobin.EndSliceSpends` | rt-thread/src/clock.c:115-116 | the scheduling at the end of a slice dispatches the thread or adds nothing to the budget |
| `RoundRobin.QuietKeepsBudget` | rt-thread/src/scheduler.c:718-752 | startups, resumes, suspensions, detaches and priority changes, of the running thread too as long as it gets no more urgent than the one that waits, never add to the budget |
| `RoundRobin.TurnComesInTime` | rt-thread/src/clock.c:91-127 | every run of fair steps that passes a ready thread over has at most as many ticks as the budget it began with, and fewer unless a tick is still to schedule when it ends |
| `Ticks.LaterIsFarther` | rt-thread/src/timer.c:454-462 | within half the tick range, wrap included, comparing by unsigned differences is comparing distances |
| `SkipList.BaseDoesNotMatter` | rt-thread/src/timer.c:454-462 | the order of a row is the same from every point it can be measured from |
| `SkipList.LinearSorted` | rt-thread/src/timer.c:437-475 | plain insertion after all equal deadlines keeps a row sorted |
| `SkipList.SubInsert` | rt-thread/src/timer.c:437-486 | inserting into two rows at the same deadline, or into the lower only, keeps one a subsequence of the other |
| `SkipList.SubWithout` | rt-thread/src/timer.c:187-195 | removing a timer from both rows does too |
| `SkipList.RaisedGood` | rt-thread/src/timer.c:471-486 | for any number of levels and any height every row stays sorted and nested in the row below |
| `SkipList.RemovedGood` | rt-thread/src/timer.c:187-195 | removing a timer keeps all rows sorted and nested |
| `SkipList.SearchAgreesIff` | rt-thread/src/timer.c:437-465 | whatever rows lie above, the search ends where a scan of the bottom row alone ends if and only if, along that row, no timer the new deadline goes behind follows one it goes before |
| `SkipList.NearIsMonotone` | rt-thread/src/timer.c:454-462 | within half the tick range of one point that holds of every row and every deadline |
| `SkipList.LateStartGoesAstray` | rt-thread/src/timer.c:397-486 | a history with allowed intervals where it fails: two timers started at tick 0 and no check until a third is started at tick 2^31; the two-level search puts it behind both, the scan in front |
| `SkipList.WalkFinds` | rt-thread/src/timer.c:437-465 | within half the range the search finds the place of linear insertion in every row |
| `SkipList.TimerList.constructor` | rt-thread/src/timer.c:26-27 | empty rows |
| `SkipList.TimerList.Remove` | rt-thread/src/timer.c:187-195 | the timer leaves every row |
| `SkipList.TimerList.RunAlong` | rt-thread/src/timer.c:440-462 | the search along a row is the specification scan from where it starts, for any rows and deadlines |
| `SkipList.TimerList.Search` | rt-thread/src/timer.c:437-465 | the search through all rows is the specification walk, each row begun where the row above stopped |
| `SkipList.TimerList.Link` | rt-thread/src/timer.c:471-486 | the timer enters the lowest rows, as many as the counter says |
| `SkipList.TimerList.Start` | rt-thread/src/timer.c:397-488 | the bottom row is the one plain stable insertion gives, whatever the levels and the counter |
| `SkipList.TimerList.NextTimeout` | rt-thread/src/timer.c:156-180 | the earliest deadline |
| `Timers.FireSteps` | rt-thread/src/timer.c:633-678 | firing the first timer leaves the other due timers in front in order and the rest in order, and one fewer due |
| `Timers.AfterFireMembers` | rt-thread/src/timer.c:646-675 | after firing, the timer is armed exactly if it restarted itself or is periodic and did not stop itself |
| `Timers.ZeroIntervalNeverEnds` | rt-thread/src/timer.c:633-678 | with a due timer that comes again after zero ticks, a timer is still due after any number of turns |
| `Timers.NextBase` | rt-thread/src/timer.c:617-684 | when no armed timer is due, the next tick finds all deadlines within half the range of it, due exactly if equal to it |
| `Timers.TimerService.constructor` | rt-thread/src/timer.c:119-144 | no timers |
| `Timers.TimerService.Init` | rt-thread/src/timer.c:119-144 | a new timer is not armed |
| `Timers.TimerService.Arm` | rt-thread/src/timer.c:397-513 | removes, sets the deadline, inserts, activates |
| `Timers.TimerService.Disarm` | rt-thread/src/timer.c:523-547 | refused exactly if not armed; otherwise the timer leaves the list |
| `Timers.TimerService.Fire` | rt-thread/src/timer.c:642-676 | the timer leaves the rows while its callback stops or restarts it or does nothing; what follows depends on where the callback left it |
| `Timers.TimerService.Check` | rt-thread/src/timer.c:617-684 | exactly the due timers fire, once each, in deadline order and first-armed first among equals; those that come again are armed one interval from now; the others keep deadline and order; none is due afterwards |
| `Timers.TimerService.StartTimer` | rt-thread/src/timer.c:397-513 | starting a timer keeps every armed deadline ahead and within half the range |
| `Timers.TimerService.StopTimer` | rt-thread/src/timer.c:523-547 | so does stopping one, which succeeds exactly if it was armed |
| `Timers.TimerService.Tick` | rt-thread/src/timer.c:617-684 | a tick fires exactly the timers whose deadline it is, and keeps every armed deadline ahead and within half the range |
| `Periodic.ComesBackIff` | rt-thread/src/timer.c:642-676 | a timer that fired is armed again exactly if its callback restarted it, or did nothing and it is periodic, and then one interval from now |
| `Periodic.PeriodicTimersKeepTime` | rt-thread/src/timer.c:617-684 | over any number of ticks and wraps of the counter a periodic timer fires first at its deadline, then every interval, and at no other tick, whatever other timers do |
| `Periodic.OneShotFiresOnce` | rt-thread/src/timer.c:617-684 | a one-shot timer fires at its deadline and is not armed afterwards |
| `SmallMem.StepGood` | rt-thread/src/mem.c:279-556 | alloc, realloc and free keep: blocks tile the heap, no two neighbours both free, `used` the sum of used extents |
| `SmallMem.ReallocGood` | rt-thread/src/mem.c:418-503 | a realloc of any kind keeps them |
| `SmallMem.ReallocReplaces` | rt-thread/src/mem.c:418-503 | realloc returns null exactly for size 0, a size beyond the heap, or when it needs a block and none fits; null changes nothing but for size 0, which frees; success replaces one block by one large enough and leaves every other used block in place |
| `SmallMem.EveryRunIsGood` | rt-thread/src/mem.c:279-556 | the same after every run of alloc, realloc and free, and `max` is the exact peak of `used` over the run, inside moves too |
| `SmallMem.AllocIsFirstFit` | rt-thread/src/mem.c:279-404 | alloc returns the lowest block that fits, aligned and large enough, and null exactly when none fits or the size is refused |
| `SmallMem.AllocThenFree` | rt-thread/src/mem.c:512-556 | freeing what was just allocated restores blocks and `used` |
| `SmallMem.AllocTakesLittle` | rt-thread/src/mem.c:279-404 | an allocation takes the lowest block that fits, just the rounded size if the rest can stand on its own and all of it otherwise; all other blocks, used and free, stay where they were |
| `SmallMem.ReallocIsTight` | rt-thread/src/mem.c:418-503 | a block stays exactly if it has the size or can be cut to it, and then has just the size; one that moves is taken as by an allocation |
| `SmallMem.ReallocThenFree` | rt-thread/src/mem.c:418-556 | freeing a reallocated block leaves the heap as freeing it at once would have |
| `SmallMem.RoundedIs` | rt-thread/src/mem.c:292-308 | what requests are rounded to, and which are refused |
| `HeapShape.SameOwnedSameBlocks` | rt-thread/src/mem.c:125-163 | the blocks in use determine all the free ones |
| `SmallMemHeap.SmallHeap.constructor` | rt-thread/src/mem.c:178-242 | one free block and the end marker |
| `SmallMemHeap.SmallHeap.Alloc` | rt-thread/src/mem.c:279-404 | wherever the loop ends, it gives the first fit; headers, `lfree`, `used` and `max` follow; no live byte is touched |
| `SmallMemHeap.SmallHeap.FindFit` | rt-thread/src/mem.c:313-319 | the search stops at the first block that fits |
| `SmallMemHeap.SmallHeap.TakeBlock` | rt-thread/src/mem.c:321-388 | splits or takes whole, and advances `lfree` to the lowest free block |
| `SmallMemHeap.SmallHeap.AdvanceLowest` | rt-thread/src/mem.c:381-388 | `lfree` ends on the lowest free block or the end |
| `SmallMemHeap.SmallHeap.Free` | rt-thread/src/mem.c:512-556 | the block is free and joined with its neighbours; `lfree` is the lowest free block |
| `SmallMemHeap.SmallHeap.PlugHoles` | rt-thread/src/mem.c:125-163 | joins a free block with free neighbours on both sides |
| `SmallMemHeap.SmallHeap.Realloc` | rt-thread/src/mem.c:418-503 | result and heap are those of the block-level realloc; the common prefix is kept, null changes no live byte, and no other live block's bytes are touched |
| `SmallMemHeap.SmallHeap.Resize` | rt-thread/src/mem.c:455-503 | stays, splits in place or moves, as the block-level realloc does |
| `SmallMemHeap.SmallHeap.Move` | rt-thread/src/mem.c:494-503 | allocates, copies and frees, as the block-level move does |
| `SmallMemHeap.SmallHeap.ShrinkBlock` | rt-thread/src/mem.c:464-492 | splits in place and joins the rest with what follows |
| `SmallMemHeap.TinyHeapScansForever` | rt-thread/src/mem.c:310-314 | the exact condition under which an allocation never returns: the request passes the size test on a heap shorter than the minimum block, and the wrapped bound keeps the scan going |
| `SmallMemHeap.BoundWraps` | rt-thread/src/mem.c:310-314 | the wrapped value of the bound |
| `MemHeap.TakeGood` | rt-thread/src/memheap.c:183-346 | allocation keeps the heap in order |
| `MemHeap.FreeGood` | rt-thread/src/memheap.c:597-724 | release with both merges keeps it |
| `MemHeap.GrowGood` | rt-thread/src/memheap.c:408-486 | growing into the next block keeps it |
| `MemHeap.ShrinkGood` | rt-thread/src/memheap.c:505-588 | shrinking keeps it |
| `MemHeap.StepGood` | rt-thread/src/memheap.c:183-724 | alloc, realloc and free keep: blocks tile the pool in address order, no two neighbours both free, the free ring holds exactly the free blocks once each, `available_size` the sum of free payloads |
| `MemHeap.ReallocGood` | rt-thread/src/memheap.c:361-588 | a realloc of any kind keeps them |
| `MemHeap.ReallocReplaces` | rt-thread/src/memheap.c:361-588 | realloc returns null exactly for size 0, or when it can neither stay, shrink nor grow and the request is refused a block; null changes nothing but for size 0, which frees; success replaces one block by one large enough and leaves every other used block in place |
| `MemHeap.EveryRunIsGood` | rt-thread/src/memheap.c:183-724 | the same after every run of alloc, realloc and free, and `max_used_size` is the exact high-water mark, inside moves too |
| `MemHeap.AllocFailsExactlyWhen` | rt-thread/src/memheap.c:193-204 | a request is refused although a block fits exactly when it equals `available_size`; otherwise it fails only when nothing fits |
| `MemHeap.FreshHeapRefusesItsCapacity` | rt-thread/src/memheap.c:200 | a fresh heap refuses the largest block it has |
| `MemHeap.AllocTakesLittle` | rt-thread/src/memheap.c:183-346 | an allocation takes the first block of the free ring that fits, just the rounded size if the rest can stand on its own and all of it otherwise; all other blocks, used and free, stay where they were, and the ring keeps its order |
| `MemHeap.FreeRing` | rt-thread/src/memheap.c:645-708 | the free ring after a release |
| `MemHeap.ReallocIsTight` | rt-thread/src/memheap.c:361-588 | a block stays exactly if it is large enough or the next one is free with enough to give, and is then cut to the wanted size but for a rest too small to stand on its own; one that moves is taken as by an allocation |
| `MemHeap.AllocThenFree` | rt-thread/src/memheap.c:183-724 | freeing what was just allocated restores the blocks and `available_size` |
| `MemHeap.ReallocThenFree` | rt-thread/src/memheap.c:361-724 | freeing a reallocated block leaves the heap as freeing it at once would have |
| `MemHeap.RoundedIs` | rt-thread/src/memheap.c:193-195 | what requests are rounded to |
| `MemHeap.FreeBlocksAre` | rt-thread/src/memheap.c:645-688 | freeing is clearing the mark and joining both ways |
| `MemHeapLinks.SplitLinked` | rt-thread/src/memheap.c:240-265 | the address ring as pointers after a split |
| `MemHeapLinks.JoinLinked` | rt-thread/src/memheap.c:41-49 | the address ring as pointers after a block is absorbed |
| `MemHeapLinks.RingRemove` | rt-thread/src/memheap.c:267-271 | the free ring as pointers after an unlink |
| `MemHeapLinks.RingPush` | rt-thread/src/memheap.c:704-708 | the free ring as pointers after a block is linked in front |
| `MemHeapPool.Pool.constructor` | rt-thread/src/memheap.c:74-150 | one free block, both rings closed |
| `MemHeapPool.Pool.Alloc` | rt-thread/src/memheap.c:183-346 | the search over the free ring and the split, by pointers, as the specification allocates; no live byte is touched |
| `MemHeapPool.Pool.FindFit` | rt-thread/src/memheap.c:217-228 | the first block of the free ring that fits |
| `MemHeapPool.Pool.Free` | rt-thread/src/memheap.c:597-724 | release with both merges, by pointers |
| `MemHeapPool.Pool.MergeBefore` | rt-thread/src/memheap.c:650-667 | joins with a free block below |
| `MemHeapPool.Pool.MergeAfter` | rt-thread/src/memheap.c:669-688 | joins with a free block above |
| `MemHeapPool.Pool.GrowBlock` | rt-thread/src/memheap.c:408-486 | takes from the next free block |
| `MemHeapPool.Pool.ShrinkBlock` | rt-thread/src/memheap.c:505-588 | gives the tail back |
| `MemHeapPool.Pool.Realloc` | rt-thread/src/memheap.c:361-588 | result, blocks, ring and accounts are those of the block-level realloc; the common prefix is kept, null changes no live byte, and no other live block's bytes are touched |
| `MemHeapPool.Pool.Resize` | rt-thread/src/memheap.c:391-588 | stays, shrinks, grows or moves, as the block-level realloc does |
| `MemHeapPool.Pool.Enlarge` | rt-thread/src/memheap.c:392-503 | grows into the next free block if that leaves a minimal one, otherwise moves |
| `MemHeapPool.Pool.Move` | rt-thread/src/memheap.c:494-503 | allocates, copies and frees, as the block-level move does |
| `SlabSizes.ZonesAndSizesAgree` | rt-thread/src/slab.c:408-466 | a list number stands for the chunk size a request is rounded to, at least the request |
| `SlabSizes.SameZoneSameSize` | rt-thread/src/slab.c:408-466 | two requests share a list exactly if they share a chunk size, across the overlapping ends of the ranges |
| `SlabPages.AllocTakes` | rt-thread/src/slab.c:211-241 | takes the first run with enough pages, exactly those pages, and fails exactly when no run has enough |
| `SlabPages.FreeCanonical` | rt-thread/src/slab.c:252-294 | releasing keeps the list sorted, disjoint and fully joined |
| `SlabPages.FreePages` | rt-thread/src/slab.c:252-294 | releasing adds exactly the released pages |
| `SlabPages.SamePagesSameList` | rt-thread/src/slab.c:211-294 | the list is determined by the set of free pages |
| `SlabPages.AllocThenFree` | rt-thread/src/slab.c:211-294 | allocating pages and releasing them restores exactly the same list |
| `SlabPages.PageList.constructor` | rt-thread/src/slab.c:299-306 | one run of all pages, its node written into the first page |
| `SlabPages.PageList.Alloc` | rt-thread/src/slab.c:211-241 | the walk with the pointer to the link, as the specification allocates; only free pages are written |
| `SlabPages.PageList.Free` | rt-thread/src/slab.c:252-294 | the walk with its three outcomes, as the specification releases; only pages free afterwards are written |
| `SlabPages.PageList.Carve` | rt-thread/src/slab.c:222-237 | takes pages from the front of a run |
| `SlabPages.PageList.Extend` | rt-thread/src/slab.c:269-277 | grows a run at its end, on into the next if it reaches it |
| `SlabPages.PageList.Place` | rt-thread/src/slab.c:279-293 | links a run in front of the next |
| `SlabZones.FreeChunkExists` | rt-thread/src/slab.c:541-570 | a listed zone always has a chunk to give: the pop of the free-chunk list never meets its end |
| `SlabZones.FromZoneKeepsInv` | rt-thread/src/slab.c:541-577 | handing out a chunk keeps the invariant and gives a pointer not yet live |
| `SlabZones.NewZoneKeepsInv` | rt-thread/src/slab.c:588-650 | opening a zone from the reserve or from pages keeps the invariant and gives a pointer not yet live |
| `SlabZones.FreshZoneFits` | rt-thread/src/slab.c:621-639 | a new zone has room for at least two chunks behind its header |
| `SlabZones.AllocLargeKeepsInv` | rt-thread/src/slab.c:503-526 | handing out whole pages keeps the invariant and gives a pointer not yet live |
| `SlabZones.FreeLargeKeepsInv` | rt-thread/src/slab.c:759-779 | releasing whole pages keeps the invariant |
| `SlabFree.EmptyHoldsNothing` | rt-thread/src/slab.c:808-809 | a zone whose count says empty holds no live chunk |
| `SlabFree.FreeSmallKeepsInv` | rt-thread/src/slab.c:781-853 | releasing a chunk, retiring an empty zone and returning a zone too many keep the invariant |
| `SlabFree.AllocKeepsInv` | rt-thread/src/slab.c:487-653 | alloc keeps the invariant, returns a new pointer charged with at least the request, and fails exactly for size 0 or when lists, reserve and pages have nothing |
| `SlabFree.FreeKeepsInv` | rt-thread/src/slab.c:736-853 | free keeps the invariant and ends exactly one live block |
| `SlabFree.StepKeepsInv` | rt-thread/src/slab.c:487-853 | every step keeps: `z_nfree` is never-used chunks plus the free-chunk list; a zone is listed exactly if it has a free chunk; a chunk is live or free; descriptors count up from their zone; `used` is the sum of live sizes |
| `SlabFree.EveryRunKeepsInv` | rt-thread/src/slab.c:487-853 | the same after every run of alloc, realloc and free, and `max` is the exact peak of `used` over the run |
| `SlabFree.ReallocReplaces` | rt-thread/src/slab.c:667-725 | realloc returns null exactly for size 0, or when the chunk size changes and nothing fits; null changes nothing but for size 0, which frees; success replaces one block by one of at least the new size and leaves all others live |
| `SlabFree.FreshIsGood` | rt-thread/src/slab.c:321-381 | an initialised slab, its descriptor table in the first pages, meets the invariant |
| `SlabEconomy.ChunkSizeIsLeast` | rt-thread/src/slab.c:408-466 | no list has smaller chunks that would do |
| `SlabEconomy.ChargeIsLeast` | rt-thread/src/slab.c:487-653 | a request is charged the least chunk that holds it, or the pages it needs and not one more |
| `SlabEconomy.ReallocCharges` | rt-thread/src/slab.c:667-725 | a reallocated block stays exactly if it is a chunk of the size already, and otherwise is charged as a new one |
| `SlabEconomy.WhenZonesOpen` | rt-thread/src/slab.c:541-606 | a zone is opened only when no zone of the size has a free chunk, and from the pages only when there is none in reserve |
| `SlabEconomy.WhenZonesClose` | rt-thread/src/slab.c:803-851 | a release closes its zone exactly if that is empty now and another zone of the size has a free chunk; where the zone goes then |
| `SlabEconomy.EveryRunIsTidy` | rt-thread/src/slab.c:487-853 | in every run each page given away is backed by a zone, the reserve, a live block or the table; no list has two empty zones; no zone has room for one more chunk |
| `SlabEconomy.FreeExactly` | rt-thread/src/slab.c:211-294 | a page is free exactly if no table, zone, reserve or live block has it |
| `SlabEconomy.FreshIsTidy` | rt-thread/src/slab.c:321-381 | so it is at the start |
| `SlabAddresses.PointerLeadsHome` | rt-thread/src/slab.c:759-786 | every live pointer leads through the page descriptors back to its own zone and chunk, or its own run |
| `SlabAddresses.LiveBlocksDisjoint` | rt-thread/src/slab.c:487-653 | live blocks do not overlap |
| `SlabAddresses.BookkeepingIsApart` | rt-thread/src/slab.c:487-853 | page list, descriptor table, zone headers and free chunks lie outside every live block |
| `SlabAddresses.WhereBlocksAlign` | rt-thread/src/slab.c:621-639 | a chunk lies on a multiple of its size if that is a power of two, and of eight otherwise, exactly if its zone does, which is sure for sizes up to a page; a run of pages lies on a page |
| `SlabBytes.NodesKeep` | rt-thread/src/slab.c:222-293 | writing page-list nodes changes no byte of a live block |
| `SlabBytes.HeaderKeeps` | rt-thread/src/slab.c:541-570 | nor does writing the header of a zone in use or in reserve |
| `SlabBytes.NewHeaderKeeps` | rt-thread/src/slab.c:619-639 | nor clearing the header of a zone made of free pages |
| `SlabBytes.LinkKeeps` | rt-thread/src/slab.c:786-788 | nor linking a chunk that is not live |
| `SlabBytes.UsageKeeps` | rt-thread/src/slab.c:608-615 | nor writing the descriptor table |
| `SlabHeap.ZoneSizeFor` | rt-thread/src/slab.c:357-360 | the zone size is the largest allowed below a 1024th of the memory, and at least the minimum |
| `SlabHeap.ConfigIsValid` | rt-thread/src/slab.c:357-366 | every zone size and limit so chosen leave room for two chunks of any size below the limit |
| `SlabHeap.Allocator.constructor` | rt-thread/src/slab.c:321-381 | chooses zone size and limit, lists all pages and takes the descriptor table from them |
| `SlabHeap.Allocator.Alloc` | rt-thread/src/slab.c:487-653 | the specification's allocation, and the address of the block; headers, nodes and descriptors are written and every live block keeps its place and its bytes; a refusal writes nothing |
| `SlabHeap.Allocator.TakeLarge` | rt-thread/src/slab.c:503-526 | a run of pages and its descriptor |
| `SlabHeap.Allocator.TakeChunk` | rt-thread/src/slab.c:541-577 | a never-used chunk first, then the free-chunk list |
| `SlabHeap.Allocator.FindZone` | rt-thread/src/slab.c:588-619 | a zone's pages from the reserve or from the page list, with descriptors; no live byte is written |
| `SlabHeap.Allocator.TakeNewZone` | rt-thread/src/slab.c:588-650 | a new zone with its header, its first chunk handed out |
| `SlabHeap.Allocator.DescribePages` | rt-thread/src/slab.c:608-615 | the descriptor loop |
| `SlabHeap.Allocator.Free` | rt-thread/src/slab.c:736-853 | finds the owner of an address and releases the block; every other live block keeps its place and its bytes; null is ignored |
| `SlabHeap.Allocator.GiveLarge` | rt-thread/src/slab.c:759-779 | releases a run of pages |
| `SlabHeap.Allocator.PutChunk` | rt-thread/src/slab.c:786-801 | writes the link into the chunk, and lists the zone again if it had no free chunk |
| `SlabHeap.Allocator.GiveChunk` | rt-thread/src/slab.c:781-853 | releases a chunk and retires its zone if that is empty and not the last of its list |
| `SlabHeap.Allocator.RetireZone` | rt-thread/src/slab.c:808-851 | an empty zone goes to the reserve, or one too many back to the pages |
| `SlabHeap.Allocator.Unlink` | rt-thread/src/slab.c:816-819 | the list walk takes a zone off its list |
| `SlabHeap.Allocator.Realloc` | rt-thread/src/slab.c:667-725 | the specification's realloc; on success the common prefix is kept, null writes nothing unless it releases, and every other live block keeps its place and its bytes |
| `SlabHeap.Allocator.Resize` | rt-thread/src/slab.c:683-722 | keeps a chunk of the same size in place and moves everything else, as the specification does |
| `SlabHeap.Allocator.Move` | rt-thread/src/slab.c:692-721 | allocates, copies and frees; null exactly when the allocation fails, and then nothing is written |

## Left out

- Alignment of `memheap` blocks: the minimum of 12 bytes keeps alignment only where `RT_ALIGN_SIZE` divides 12 (rt-thread/src/memheap.c:193-195), so nothing is claimed about it.
- The semaphore around `memheap` operations and `RT_MEMHEAP_BSET_MODE`: one operation is one step, and the free ring is in the order the code's default mode keeps.
- In `mem.c`, `prev` of the end marker is not kept right next to a split (rt-thread/src/mem.c:351) and a shrunk block may fall below the minimum size (rt-thread/src/mem.c:464-477); neither is claimed.
- MemPool.Pool.constructor: asks for room for at least one block; with less the code writes before the pool.
- MemHeapPool.Pool.constructor: asks for a pool that holds both headers, which the code does not test.
- MessageQueue.Queue.constructor: capacities are at most 65535, as are those of `Mailbox.Box.constructor`; the kernel keeps them in 16 bits.
- SlabHeap.Allocator.constructor: starts from whole pages, and asks for pages that divide the minimum zone, a descriptor per page and a zone header of at most a quarter zone; trimming a raw address range to pages is not modelled.
- SlabHeap.Allocator.Alloc: what is written into headers, nodes, links and descriptors is any bytes at their places, with the values kept beside. The header comment promises a non-null result for size 0, the code returns null, and the model follows the code.
- Requested sizes are assumed not to overflow when rounded up (rt-thread/include/rtdef.h:329).
- Timers.TimerService.Tick: the steady state asks for intervals from 1 to below half the tick range; `Check` itself covers one-shot timers with interval 0 and late checks.
- A tick that advances while timers are being checked: the check runs with one tick value.
- Timer callbacks that start or stop timers other than their own, the soft timer thread, and `RT_TIMER_CTRL_GET_STATE`, which falls through to the next case (rt-thread/src/timer.c:587-600).
- Mutex.EveryRunKeepsInv: only runs in which no thread deals with two mutexes; for all other runs `MutexNesting.InversionFreeIff` has the exact condition. Deleting a thread that owns a mutex is not modelled.
- Nesting counters of the multi-core lock are unbounded numbers; the kernel keeps 16 bits and does not check them.
- The multi-core ready queues with CPU binding and the pick among more than 32 priorities on several CPUs, which reads the table without a zero test (rt-thread/src/scheduler.c:141-144).
- Event requests naming neither all-of nor any-of, which the code asserts against.
- Signals, hooks, debug output, object registry, devices, interrupts as hardware, context-switch assembly, thread creation and stacks.
- Deleting or detaching objects while threads wait on them.
