# RIOT core in Dafny

A model of the parts of RIOT whose correctness is least obvious, with proofs. `dafny verify dfyconfig.toml` checks
all of it.

**The kernel** (`Kernel*.dfy`, `LinkFields.dfy`, `ThreadLinks.dfy`, `Mailboxes.dfy`). `KernelSpec` is a step machine: one step is one
section of kernel code that executes with interrupts disabled. `KernelRuns` lets threads, scheduler runs and interrupt
handlers interleave freely from `kernel_init` on; an invariant (`KernelStruct`, `KernelInv`) holds in every state of
every legal run (`KernelRuns.RunInv`). `KernelTheorems`, `KernelReplies` and `KernelLimits` say what follows for a
state or step that satisfies it, `KernelEveryRun` and `KernelPriority` what follows for every legal run.
`KernelEffects` says independently of the step machine, attribute by attribute, what a step is to do to a thread;
`KernelOutcomes`, `KernelBuffers` and `KernelYields` prove that every legal step does exactly that, to every thread, to
every message buffer, and to the pending yield. `KernelCalls` spells it out for single calls, and `KernelReturns`
follows calls through every run, from the step that makes a call to the one with which its caller is back. `KernelLogs`
says what every step does to the records of messages, and `KernelLosses` accounts for every message of a run.
`KernelFailures` gives legal runs that lead to the cases in which the kernel does less than one would expect.
`ThreadLinks.Links` keeps the queues as the source does: a single link field per thread shared by all lists, circular
run queues, the bit cache, NULL-terminated wait lists, `MUTEX_LOCKED`; `Mailboxes.Boxes` keeps each thread's messages
in an array with a cib. `KernelObject.Kernel` is the kernel as an object that its calls update in place; every method
leads to exactly the state the step machine goes to. What the methods ask for follows from the invariant
(`KernelObject.InvFacts`), and `KernelDriver` carries the agreement over whole runs.

**The heap** (`Heap*.dfy`). `HeapAllocator.Heap` is the MSP430 allocator over a byte array, with the size fields and
the free list inside the managed bytes and 16-bit pointers and sizes. A `Layout` (chunk sizes, free list, break) is
what these bytes mean; each method is proved to turn one layout into the next and to leave the payload of all other
blocks alone. `HeapFree` follows the writes of `free` for blocks of every size, also of those whose list entry reaches
into the next chunk. `HeapOps`, `HeapResize` and `HeapRuns` prove what the layouts promise, over every run,
`HeapBlocks` that the blocks alone determine the layout, so that `free` undoes `malloc`. `HeapDriver` takes the byte array through every run and says what the owners of blocks see of it, their own stores included, and
`HeapFailures` gives runs that lead to the cases in which blocks or sizes are lost.

**The data structures**. `CircularList` and `ListOps` are clist on node objects, with the bottom-up merge sort that
relinks nodes in place; `ListSort` is the same sort on sequences and proves it sorted and stable. `Cib` is the
wrap-around index buffer and the queue it makes of an array. `Bits` and `BitArithm` are the bit tricks.
`RecursiveMutex` is the recursive mutex, one step per access to shared memory.

## Reading the kernel model

- A yield inside a section with interrupts disabled is a pending yield: it happens before the active thread executes
  anything else (`cpu/cortexm_common/thread_arch.c:276-281`). A scheduler run may also happen at any other time.
- Where the code decides about a yield only after it has enabled interrupts again (`core/msg.c:115-118`,
  `core/mutex.c:106-107`, `core/cond.c:73-76`), the model takes this decision in the same step as the section before it.
- Message buffers belong to the thread on whose stack they lie, and only that thread and the kernel write to them.
- `call` is a thread's place in the kernel call it made. `on`, `since` and `has` of a thread, the clock, `lax`, the
  recorded mutex holders and the message logs are bookkeeping on which no decision of the kernel depends.
- Callers obey what the code demands of them (`KernelRuns.Legal`): a mutex is unlocked by its holder, a thread exits
  without mutexes and without senders waiting for it, a reply goes to a received request, `msg_send_receive` names an
  existing thread, `msg_init_queue` finds nothing queued. The idle thread makes no kernel calls.

## Where the code does less than one would expect

- `msg_send_receive` to a thread that does not exist returns with the caller off its run queue and without a yield:
  `KernelLimits.SendReceiveExact`, met right after boot by `KernelFailures.RequestToNobody`. A reply to a request that
  was not received: `ReplyExact`, met after the run of `QueuedRequest`. `msg_init_queue` over queued messages or waiting
  senders: `InitQueueExact`, met after the runs of `QueueSetUpAgain` and `QueuedRequest`.
- A thread that exits takes the messages in its queue with it, although their senders were told that they were sent:
  `KernelLosses.ExitLoses`, met by `KernelFailures.LostAtExit`. An exit loses nothing exactly if the queue is empty
  (`ExitLosesNothingIff`), and over a whole run nothing else is ever lost (`EveryMessageAccounted`,
  `ThreadLosesNothingIff`).
- With thread flags, a message queued for a thread that waits for the message flag wakes it without a yield, so that a
  thread of better priority may stay runnable: `KernelPriority.SendLax`, met by `KernelFailures.SilentMessage`.
  `THREAD_CREATE_WOUT_YIELD` does the same: `CreateLax`, met by `SilentCreate`. No other call does
  (`StepLaxExactly`), and `StrictExactly` says for every legal run when priority is strict.
- `realloc` of the topmost block to 0xfffe bytes or more wraps past the test at `cpu/msp430_common/malloc.c:338` and
  sets the break inside the block: the last clause of `Heap.Realloc`, met by `HeapFailures.WrapLosesBlock`. The test also
  refuses requests that end above the address space although a free chunk elsewhere would do.
- `realloc` to less than two bytes can leave a block that is too small for a list entry (`HeapRuns.ResizedRoomy` says
  exactly when). `free` of such a block stores the address of the next free chunk over the size field behind it, and may
  put a chunk on the list whose entry overlaps that field. `HeapFree.Harms` is the exact condition for the first,
  `HeapOps.Settles` fails exactly in the second case, and `free` leaves the heap in order exactly if neither happens
  (`Heap.Free`, `HeapFree.FreedGood`). `HeapFailures.ShrivelLoses` and `ShortEntryHappens` lead there.
- A cib of size 2^31 passes the test in `cib_init`, but its signed comparison never sees it full: `Cib.SoundExactly`,
  `HalfRangeNeverFull`.
- `thread_create` does not initialise the flag word of a new thread; it is a parameter of the model.

## Model

| member | source | states |
|---|---|---|
| `KernelRuns.RunInv` | core/sched.c:82-223 | In every state of every legal run of threads, scheduler and handlers from boot, the whole kernel invariant holds |
| `KernelRuns.StepKeeps` | core/msg.c:42-397 | Every legal step, from every state that satisfies it, keeps the kernel invariant |
| `KernelRuns.BootInv` | core/kernel_init.c:89-111 | After kernel_init, with idle and main thread, the invariant holds |
| `KernelInv.SchedRunKeeps` | core/sched.c:82-152 | sched_run restores the invariant, selects the head of the best queue and clears the pending yield |
| `KernelTheorems.EveryRunIsSafe` | core/mutex.c:35-108 | Over all legal runs: one holder per mutex; per sender and receiver, while the receiver lives, nothing lost, doubled or reordered; nobody blocked on flags that are set |
| `KernelEveryRun.LinksAreExclusive` | core/thread.c:112-129 | In every state of every legal run, a thread's link field is on its own run queue once iff its status is runnable, else on at most one wait list; wait lists are in priority order, first come first served |
| `KernelEveryRun.ListsAgree` | core/mutex.c:49-66 | In every legal run, the wait list a thread is on agrees with its blocked status and with the call it is in |
| `KernelTheorems.PopIsRightIffHead` | core/sched.c:172-183 | Popping the head of the run queue keeps queues and statuses consistent if and only if the thread is at the head |
| `KernelEveryRun.PopsAreRight` | core/sched.c:161-184 | In every legal run, every thread that executes is at the head of its queue, so blocking removes exactly it from the run queues |
| `KernelEveryRun.LaterPopsAreRight` | core/cond.c:37-45 | So are the pops that follow an unlock in the same call, in cond_wait and in mutex_unlock_and_sleep |
| `KernelPriority.StrictExactly` | core/sched.c:186-209 | In every state of every legal run without a pending yield, no runnable thread is better than the active one if and only if no step has skipped a yield for a better thread since the last switch |
| `KernelPriority.StepLaxExactly` | core/sched.c:82-223 | A step leaves a better thread waiting exactly if it, or an earlier step, skipped its yield and the step does not switch; only thread_create without yield and a queued message that wakes by flag skip it |
| `KernelPriority.RunsAreStrict` | core/sched.c:186-209 | In particular, in runs without thread flags and without THREAD_CREATE_WOUT_YIELD an executing thread has the best priority of all runnable ones |
| `KernelPriority.CreateLax` | core/thread.c:255-268 | thread_create breaks strict priority exactly for an awake thread of better priority created without yield |
| `KernelPriority.SendLax` | core/msg.c:107-117 | msg_send breaks strict priority exactly when it queues for a better thread that the message flag wakes |
| `KernelFailures.SilentCreate` | core/thread.c:255-268 | A legal run after which a better thread, created without yield, is runnable and nothing is pending |
| `KernelFailures.SilentMessage` | core/msg.c:107-117 | A legal run after which a better thread, woken by the message flag, is runnable and nothing is pending |
| `KernelLimits.SendReceiveExact` | core/msg.c:220-233 | msg_send_receive keeps the invariant if and only if the target exists |
| `KernelLimits.ReplyExact` | core/msg.c:235-260 | msg_reply keeps the invariant if and only if its addressee is not still queued as a sender |
| `KernelLimits.InitQueueExact` | core/msg.c:392-397 | msg_init_queue keeps the invariant if and only if nothing is queued and, for a queue with room, no sender waits |
| `KernelFailures.RequestToNobody` | core/msg.c:220-233 | A legal run after which msg_send_receive to a missing thread breaks the invariant |
| `KernelFailures.QueuedRequest` | core/msg.c:235-260 | A legal run after which a reply to a request that is still queued, and any msg_init_queue with room, break the invariant |
| `KernelFailures.QueueSetUpAgain` | core/msg.c:392-397 | A legal run after which the caller has a message queued and any msg_init_queue breaks the invariant |
| `KernelFailures.LostAtExit` | core/sched.c:211-223 | A legal run in which an accepted message is lost because its receiver exits |
| `KernelEveryRun.MutexWordsEncode` | core/mutex.c:42-59 | In every legal run, queue.next is NULL exactly if no thread holds the mutex, MUTEX_LOCKED only without waiters, and its list holds exactly the threads blocked in a lock call on it |
| `KernelTheorems.UnlockHandsOver` | core/mutex.c:73-108 | Unlocking with waiters makes the best, longest waiting one the holder; the mutex is never free and no trylock succeeds |
| `KernelEveryRun.WaitersAreQueued` | core/cond.c:35-51 | In every legal run, a thread inside cond_wait is on the condition's queue until it has been signalled |
| `KernelTheorems.CondWaitIsAtomic` | core/cond.c:37-45 | In the state in which cond_wait has given up the mutex the waiter is already queued |
| `KernelTheorems.SignalWakesBest` | core/cond.c:53-82 | cond_signal wakes the best, longest waiting thread and leaves the others queued in order |
| `KernelTheorems.BroadcastWakesAll` | core/cond.c:53-87 | cond_broadcast makes every waiter runnable and leaves the queue empty |
| `KernelEveryRun.LocksReturnHolding` | core/cond.c:46-50 | In every state of every legal run, the step with which a thread leaves the mutex or condition call it stands in makes it the recorded holder of the mutex that the call names |
| `KernelEveryRun.FlagWaitsReturn` | core/thread_flags.c:58-100 | In every state of every legal run, what the clearing half returns is judged by the mask and the kind with which the thread stands in its wait |
| `KernelTheorems.NothingLostOrReordered` | core/msg.c:82-172 | What a receiver got from a sender is a prefix of what was sent; the rest is its queue followed by the message the sender is blocked with |
| `KernelEveryRun.QueuesFillFirst` | core/msg.c:297-371 | In every legal run, a receive-blocked thread has no messages and no waiting senders; senders wait only for a full queue, so the slot freed at line 351 exists |
| `KernelEveryRun.ReceivesReturn` | core/msg.c:289-374 | In every state of every legal run, a thread that can leave the receive it stands in has been handed a message, and that is what its buffer holds |
| `KernelEveryRun.RequestsReturn` | core/msg.c:220-277 | In every legal run, while msg_send_receive waits, wait_data is the reply buffer; it returns only with a reply, which is in that buffer |
| `KernelReplies.OnlyRepliesAnswer` | core/msg.c:235-277 | No step but a reply to it ends a thread's wait in msg_send_receive, and that reply is what it gets |
| `KernelLogs.AcceptedIsLogged` | core/msg.c:60-183 | msg_send and msg_try_send, to another thread or to oneself, return 1 exactly when the stamped message joins what the sender has sent to the target, and it counts as received at once exactly if the target was waiting; otherwise nothing is recorded |
| `KernelLogs.RequestIsLogged` | core/msg.c:220-233 | A request counts as sent exactly if its target exists, and as received at once exactly if the target was waiting |
| `KernelLogs.HandlerIsLogged` | core/msg.c:185-218 | msg_send_int returns 1 exactly when the stamped message joins what handlers have sent to the target |
| `KernelLogs.ReceiveIsLogged` | core/msg.c:289-374 | A receive counts as received exactly the message it finds, the oldest queued or else that of the first waiting sender, and then has it, in its buffer |
| `KernelLogs.DeliveredArrives` | core/msg.c:158-166 | A message handed to a receive-blocked thread is what its call gets, in its buffer |
| `KernelLogs.StepLogs` | core/msg.c:42-397 | Every legal step but an exit records exactly the message it accepts as sent and exactly the one it hands over as received |
| `KernelLosses.ExitLoses` | core/sched.c:211-223 | What an exiting thread was sent by anyone is what it received followed by what is in its queue, which goes with it; all other threads keep their queues |
| `KernelLosses.ExitLosesNothingIff` | core/sched.c:211-223 | An exit loses messages of no sender if and only if the queue is empty |
| `KernelLosses.EveryMessageAccounted` | core/msg.c:42-397 | Over every legal run, the messages ever accepted from s for r are those ever received, those lost in the queue of an r that exited, those queued and the one s is blocked with; since the last exit of r in the order sent |
| `KernelLosses.ThreadLosesNothingIff` | core/sched.c:211-223 | Over every run, no message for r is lost if and only if every exit of r finds its queue empty |
| `KernelOutcomes.StepEvolves` | core/sched.c:154-223 | Every legal step makes of every thread but one that exits exactly what the step asks for: runnable or blocked, its place in its call, its mutexes, flags, queue and time of joining a list. No thread is woken without what it waits for, and none that is given it stays blocked |
| `KernelOutcomes.StepTable` | core/thread.c:200-215 | Threads appear by thread_create and disappear by their own exit only |
| `KernelOutcomes.CreateMakes` | core/thread.c:150-269 | thread_create takes the lowest free id for a thread of the given priority, asleep or last in its run queue |
| `KernelBuffers.StepHolding` | core/msg.c:42-374 | Every legal step leaves in every message buffer what it hands over there, what the owner's call writes there, and else what was there |
| `KernelYields.StepPends` | core/sched.c:186-209 | After every legal step a yield is pending if and only if one was, the caller yielded or blocked, or the step created or woke a thread to which it has to yield, or a handler ended with a request outstanding |
| `KernelYields.StepActive` | core/sched.c:82-152 | sched_run, also at an exit, makes the head of the best run queue active; no other step changes the active thread |
| `KernelCalls.LockTakesOrWaits` | core/mutex.c:35-71 | mutex_lock returns with the mutex if and only if no thread held it; otherwise the caller is blocked in this very call, in the mutex's queue, with a yield pending |
| `KernelCalls.TryLockTakesIffFree` | core/mutex.c:35-56 | mutex_trylock never waits, and gives the caller a mutex it did not have if and only if no thread held it; otherwise nothing changes |
| `KernelCalls.CondWaitWaits` | core/cond.c:35-45 | cond_wait gives up the mutex it was called with, waits for the condition it was called with, remembers both, and yields |
| `KernelCalls.FlagsWaitWaits` | core/thread_flags.c:39-100 | A flag wait remembers its mask and kind, and blocks, with a yield pending, if and only if the flags do not suffice for them |
| `KernelCalls.ReceiveTakesOrWaits` | core/msg.c:289-374 | A receive goes on with the message it finds in its buffer; if there is none it waits with that buffer and yields, or, if it may not wait, changes nothing |
| `KernelCalls.YieldGoesBehind` | core/thread.c:100-110 | thread_yield moves the caller behind all others of its priority, and the next scheduler run picks the one then first |
| `KernelCalls.WakeupWakes` | core/thread.c:71-98 | thread_wakeup makes a sleeping thread runnable, last in its queue, and changes nothing for any other |
| `KernelCalls.FlagsSetWakes` | core/thread_flags.c:102-139 | thread_flags_set sets the flags and wakes the thread if and only if it waits and they suffice; no other thread changes |
| `KernelCalls.FlagsTakeClears` | core/thread_flags.c:30-37 | A flag wait clears exactly the flags it returns |
| `KernelCalls.InitQueueMakesRoom` | core/msg.c:392-397 | After msg_init_queue for n messages, any n are taken, in order, and the next is refused |
| `KernelReturns.CallGoesOn` | core/cond.c:35-51 | No step changes what a call in progress was called with; only its caller's own step ends it |
| `KernelReturns.CallKeepsArguments` | core/mutex.c:35-71 | In every legal run a thread stands in the call that it made, with that call's arguments, until it is back in user code |
| `KernelReturns.OnlyBringsWakes` | core/sched.c:154-184 | A thread blocked in a call becomes runnable only by a step that gives it what the call waits for |
| `KernelReturns.BlockedCallsWait` | core/msg.c:120-156 | In every legal run a call that blocked its caller ends only after such a step: a wake-up, a release of its mutex, a signal of its condition, a receive by its target, a message, a reply, a flag of its mask |
| `KernelReturns.LockCallsReturnHolding` | core/cond.c:35-51 | In every legal run, a thread that calls mutex_lock or cond_wait with mutex m has m when it is back in user code |
| `KernelReturns.CondWaitsReturnSignalled` | core/cond.c:35-51 | In every legal run, cond_wait returns only after a signal of the condition it was called with |
| `KernelReturns.FlagWaitsFulfil` | core/thread_flags.c:58-100 | In every legal run, what a flag wait returns and clears fits the mask and kind it was called with: all of the mask, the set ones of it and at least one, or exactly one of it |
| `KernelReturns.ReceivesReturnMessage` | core/msg.c:279-374 | In every legal run, a blocking receive returns only after a message was handed over to its caller, and with that message in the buffer it was called with; a receive that may not wait does so too, or returns at once if nothing was there |
| `KernelReturns.RequestsReturnReply` | core/msg.c:220-277 | In every legal run, msg_send_receive returns only after a reply to its caller, and with that reply in the buffer it was called with |
| `KernelDriver.CacheMeans` | core/sched.c:161-184 | Bit p of runqueue_bitcache is set if and only if a thread of priority p is runnable |
| `KernelDriver.RunAll` | core/kernel_init.c:89-111 | The object, with its linked queues and the cib of every thread, goes through every legal run in step with the step machine |
| `KernelDriver.Do` | core/sched.c:82-223 | Every legal step of the object is the step of the machine and keeps the invariant |
| `ThreadLinks.LowestIsBest` | core/sched.c:91-92 | The lowest bit of the cache is the number of the best non-empty run queue |
| `ThreadLinks.Links.Enqueue` | core/sched.c:163-170 | clist_rpush through the shared link fields appends to the run queue and sets its cache bit; all other lists stay |
| `ThreadLinks.Links.Dequeue` | core/sched.c:172-181 | clist_lpop removes the first thread, clears the cache bit exactly of a queue that became empty; all other lists stay |
| `ThreadLinks.Links.Rotate` | core/thread.c:104-106 | clist_lpoprpush moves the first thread of the run queue to its end |
| `ThreadLinks.Links.BestThread` | core/sched.c:91-92 | lsb of the cache, tail and its link lead to the head of the best queue |
| `ThreadLinks.Links.AddToList` | core/thread.c:112-129 | The pointer walk inserts behind all entries of the same or better priority, and only the list meant changes |
| `ThreadLinks.Links.RemoveHead` | core/include/list.h:67-75 | Removes and returns the first thread, NULL for an empty list |
| `LinkFields.PushStored` | core/include/clist.h:115-125 | The two link writes of a push keep every list of the kernel stored in the shared link fields |
| `LinkFields.PopStored` | core/include/clist.h:156-171 | The link write of a pop does so too |
| `LinkFields.InsertStored` | core/thread.c:127-128 | The two link writes of an insertion do so too, including the one that replaces MUTEX_LOCKED |
| `KernelObject.Kernel.constructor` | core/kernel_init.c:89-104 | The object starts with idle and main thread on their run queues |
| `KernelObject.Kernel.Join` | core/sched.c:161-171 | sched_set_status to a runnable status is the machine's |
| `KernelObject.Kernel.Leave` | core/sched.c:172-184 | sched_set_status of the active thread to a blocked status is the machine's |
| `KernelObject.Kernel.Switch` | core/sched.c:186-209 | sched_switch yields iff the active thread is blocked or worse |
| `KernelObject.Kernel.Run` | core/sched.c:82-152 | sched_run by bit cache and links reaches the machine's state |
| `KernelObject.Kernel.Exit` | core/sched.c:211-223 | sched_task_exit removes the active thread from queue and table and switches |
| `KernelObject.Kernel.Yield` | core/thread.c:100-110 | thread_yield rotates the own queue and yields |
| `KernelObject.Kernel.Sleep` | core/thread.c:59-69 | thread_sleep blocks the active thread and yields |
| `KernelObject.Kernel.Wakeup` | core/thread.c:71-98 | thread_wakeup makes a sleeping thread runnable, reports whether it did, and yields for a better one |
| `KernelObject.Kernel.FindPid` | core/thread.c:200-206 | The search loop finds the lowest free process id, or none |
| `KernelObject.Kernel.Create` | core/thread.c:150-269 | thread_create returns the new id, -EINVAL or -EOVERFLOW, and reaches the machine's state |
| `KernelObject.Kernel.Lock` | core/mutex.c:35-71 | _mutex_lock decides on queue.next: the caller has the mutex, or is blocked in this call and in its queue with a yield pending, or nothing changes and it fails |
| `KernelObject.Kernel.Unlock` | core/mutex.c:73-108 | mutex_unlock frees the mutex or hands it to the first waiter and yields for a better one |
| `KernelObject.Kernel.UnlockAndSleep` | core/mutex.c:110-136 | mutex_unlock_and_sleep releases the mutex and sleeps in one section |
| `KernelObject.Kernel.CondWait` | core/cond.c:35-45 | The first section of cond_wait unlocks, and blocks and queues the caller in a call that remembers condition and mutex, with a yield pending |
| `KernelObject.Kernel.WakeWaiters` | core/cond.c:53-71 | The loop wakes one or all waiters and computes the best of their priorities |
| `KernelObject.Kernel.Signal` | core/cond.c:53-77 | _cond_signal wakes and then yields for the best woken thread |
| `KernelObject.Kernel.RaiseFlags` | core/thread_flags.c:102-125 | Setting flags wakes the thread exactly if they end its wait |
| `KernelObject.Kernel.FlagsSet` | core/thread_flags.c:127-139 | thread_flags_set sets, wakes and then yields |
| `KernelObject.Kernel.FlagsWait` | core/thread_flags.c:39-100 | The waiting half remembers mask and kind, and blocks, with a yield pending, exactly if the flags do not suffice for them |
| `KernelObject.Kernel.FlagsTake` | core/thread_flags.c:30-37 | The clearing half returns and clears what the wait asked for |
| `KernelObject.Kernel.PutMsg` | core/msg.c:44-51 | cib_put and the store to msg_array append to the thread's queue, or fail exactly if it is full |
| `KernelObject.Kernel.QueueMsg` | core/msg.c:42-58 | queue_msg appends unless the queue is full, wakes a thread that waits for the message flag, and reports both |
| `KernelObject.Kernel.TakeQueued` | core/msg.c:297-313 | cib_get and the copy take the oldest message, or report that there is none |
| `KernelObject.Kernel.InitQueue` | core/msg.c:392-397 | msg_init_queue gives the caller an empty queue of the given size |
| `Mailboxes.Boxes.Put` | core/msg.c:42-51 | Puts into one thread's cib and array; all other queues, in arrays of their own, stay |
| `Mailboxes.Boxes.Get` | core/msg.c:297-313 | Takes the oldest message of one thread; all other queues stay |
| `Mailboxes.Boxes.Init` | core/msg.c:392-397 | One thread gets a new, empty queue; all others stay |
| `KernelObject.Kernel.SendStamped` | core/msg.c:92-171 | _msg_send delivers, queues, blocks or refuses, and returns -1, 0 or 1 accordingly |
| `KernelObject.Kernel.Send` | core/msg.c:60-183 | msg_send and msg_try_send, to another thread or to oneself |
| `KernelObject.Kernel.SendReceive` | core/msg.c:220-233 | msg_send_receive blocks for the reply and sends from the reply buffer |
| `KernelObject.Kernel.Reply` | core/msg.c:235-260 | msg_reply answers a reply-blocked thread, or returns -1 |
| `KernelObject.Kernel.Receive` | core/msg.c:289-374 | _msg_receive takes a queued message and refills from the first waiting sender, or takes that one's, and has it in its buffer; or it blocks with its buffer and a yield pending, or nothing changes and it fails |
| `KernelObject.Kernel.SendInt` | core/msg.c:185-218 | msg_send_int delivers or queues from a handler and never blocks |
| `KernelObject.Kernel.ReplyInt` | core/msg.c:262-277 | msg_reply_int answers and requests a switch |
| `HeapAllocator.Heap.Malloc` | cpu/msp430_common/malloc.c:79-216 | malloc on bytes places the request best-fit, else above the break, else fails and changes nothing; the block has less than a list entry more than the request, and no other block's bytes change |
| `HeapAllocator.Heap.Search` | cpu/msp430_common/malloc.c:104-133 | The walk finds the first exact chunk, else the lowest of the smallest sufficient ones, or that none suffices |
| `HeapAllocator.Heap.FromBreak` | cpu/msp430_common/malloc.c:177-215 | The break is raised exactly if header and request fit below the end of the heap |
| `HeapAllocator.Heap.Free` | cpu/msp430_common/malloc.c:218-313 | free on bytes, of a block of any size, means insertion in address order, merging with both neighbours and lowering the break, and changes no other block's bytes; all size fields are right afterwards if and only if the bytes behind a small block already held what free stores there, and the heap is in order if and only if, moreover, no chunk too small for a list entry came on the list |
| `HeapAllocator.Heap.Realloc` | cpu/msp430_common/malloc.c:317-446 | realloc on bytes, of a block of any size, reaches the specified layout with the first min(old, new) bytes in place and all other blocks untouched; the block is larger than the request by at most a list entry, or keeps its old size of at most that; the heap is in order if and only if the block stays in place or is freeable after malloc; a refusal changes no byte; the requests that wrap lose the block |
| `HeapAllocator.Heap.WritePart` | cpu/msp430_common/malloc.c:380-384 | The overlapping writes that split the next chunk leave the intended words because nx is copied first |
| `HeapAllocator.Heap.Copy` | cpu/msp430_common/malloc.c:442 | memcpy between disjoint ranges |
| `HeapOps.PlacedBlocks` | cpu/msp430_common/malloc.c:95-215 | malloc returns 0 only if no free chunk suffices and the break cannot be raised; otherwise one new block of at least the size, and all others stay |
| `HeapOps.BestFitUnique` | cpu/msp430_common/malloc.c:104-133 | The chunk that malloc uses is determined |
| `HeapOps.FreeOk` | cpu/msp430_common/malloc.c:254-310 | After free the chunks tile the heap, the list is in address order, holds only chunks with room for a list entry, and no free chunks touch each other or the break, if and only if the block has that room, touches the break or has a free neighbour |
| `HeapOps.JoinedTopmost` | cpu/msp430_common/malloc.c:294-310 | free lowers the break exactly if the block touches it |
| `HeapFree.StoreNext` | cpu/msp430_common/malloc.c:236-266 | Storing the list successor in the freed block leaves all size fields right but the one behind it, and that one exactly under the stated condition |
| `HeapFree.JoinBut` | cpu/msp430_common/malloc.c:267-271 | A merge adds up the size fields it reads, in 16-bit arithmetic: the sum is right if and only if the swallowed chunk's field was |
| `HeapFree.TrimFreed` | cpu/msp430_common/malloc.c:294-310 | After the last write of free the size fields are those of the new layout if and only if none was destroyed; then the bytes, list head and break describe it |
| `HeapFree.FreedGood` | cpu/msp430_common/malloc.c:218-313 | free leaves the heap in order if and only if the block is freeable |
| `HeapOps.FreeBlocks` | cpu/msp430_common/malloc.c:218-313 | free ends exactly one block and keeps address and size of all others |
| `HeapOps.AllFreed` | cpu/msp430_common/malloc.c:243-310 | A consistent heap without blocks has an empty free list and its break at the start |
| `HeapLayout.ByteHasChunk` | cpu/msp430_common/malloc.c:69-78 | Every byte below the break lies in exactly one chunk |
| `HeapResize.ResizedMeans` | cpu/msp430_common/malloc.c:350-446 | realloc refuses exactly the requests stated and then changes nothing, else yields a block of the size or at most a list entry more, or of its old size of at most a list entry, and keeps all others; it keeps the heap consistent if the block stays or is freeable after malloc |
| `HeapResize.PlacedSnug` | cpu/msp430_common/malloc.c:134-175 | malloc hands out less than a list entry more than the request |
| `HeapResize.ResizedTrimmed` | cpu/msp430_common/malloc.c:350-446 | realloc hands out less than a list entry more in a new place and at most a list entry more in the old one; a block that shrinks gets exactly the request, or keeps less than a list entry more, or its old size of at most a list entry. The block moves exactly if it must |
| `HeapBlocks.BlocksDetermine` | cpu/msp430_common/malloc.c:69-78 | Addresses and sizes of the blocks determine the free chunks, the free list and the break of a consistent heap |
| `HeapBlocks.FreeDetermined` | cpu/msp430_common/malloc.c:218-313 | free leaves the one consistent heap with all blocks but the freed one |
| `HeapBlocks.BlockDetermines` | cpu/msp430_common/malloc.c:350-446 | malloc and realloc leave the one consistent heap with the resulting block besides the others |
| `HeapBlocks.FreeUndoesMalloc` | cpu/msp430_common/malloc.c:79-313 | free of a block that malloc just returned makes the heap exactly what it was |
| `HeapBlocks.FreesCommute` | cpu/msp430_common/malloc.c:218-313 | Two blocks may be freed in either order, with the same heap after |
| `HeapBlocks.RunsForget` | cpu/msp430_common/malloc.c:79-446 | Two runs that end with the same blocks end with the same heap |
| `HeapBlocks.UnusedExactly` | cpu/msp430_common/malloc.c:79-446 | A call that replaces one block by another makes the bytes of the first free and uses those of the second; no other byte goes or comes |
| `HeapDriver.ReallocUses` | cpu/msp430_common/malloc.c:367-401 | So does realloc: the rest of a chunk into which a block grows stays free |
| `HeapResize.PayloadWrite` | cpu/msp430_common/malloc.c:69-78 | Writing anywhere in an own block leaves the allocator's data intact |
| `HeapResize.LostBlock` | cpu/msp430_common/malloc.c:337-342 | No consistent heap has a block whose header claims 0xfffe bytes or more |
| `HeapRuns.RunKeeps` | cpu/msp430_common/malloc.c:79-446 | In every state of every run of malloc, free, realloc and stores to blocks, each free and move being of a freeable block of any size, the heap is consistent |
| `HeapRuns.StepRoomy` | cpu/msp430_common/malloc.c:350-366 | A call leaves every block large enough to be freed if and only if it is not a realloc that shrinks one below two bytes |
| `HeapRuns.RunRoomy` | cpu/msp430_common/malloc.c:79-446 | As long as no such realloc happens, every block of a run can be freed |
| `HeapRuns.RunReclaims` | cpu/msp430_common/malloc.c:243-310 | Once every block of a run has been freed, in whatever order, the heap is as it was at the start |
| `HeapRuns.RunBlocksApart` | cpu/msp430_common/malloc.c:79-446 | Blocks that are live at the same time never overlap |
| `HeapRuns.ResizedRoomy` | cpu/msp430_common/malloc.c:350-366 | realloc keeps all blocks large enough for a list entry if and only if it does not shrink one below it |
| `HeapRuns.RunReaches` | cpu/msp430_common/malloc.c:233-236 | In every state of every run the four bytes that free writes at a block lie inside the heap, even of a block too small for them |
| `HeapDriver.Do` | cpu/msp430_common/malloc.c:79-446 | Every call on the byte array is the call on layouts, and the owners of blocks see what it promises them: a new or resized block of the size asked for or little more, kept prefix, all other blocks with every byte in place |
| `HeapDriver.DoesDetermined` | cpu/msp430_common/malloc.c:79-446 | A call leads to one layout and gives one answer |
| `HeapDriver.RunAll` | cpu/msp430_common/malloc.c:79-446 | The byte array goes through every run: after each step its bytes describe the run's layout, and each step shows the owners what it promises |
| `HeapDriver.ContentsKept` | cpu/msp430_common/malloc.c:317-446 | Over any stretch of any run in which a block is neither freed nor resized it stays live, and its bytes change by its owner's stores only |
| `HeapFailures.WrapLosesBlock` | cpu/msp430_common/malloc.c:337-342 | On a fresh heap, malloc and then realloc to 0xfffe bytes or more loses the block |
| `HeapFailures.WrapIsNear` | cpu/msp430_common/malloc.c:337-342 | A run after which such a request wraps |
| `HeapFailures.ShrivelHappens` | cpu/msp430_common/malloc.c:350-366 | A run that leaves a block of no bytes whose free destroys the next chunk's size field, unless the heap starts at address 4; there it is freeable |
| `HeapFailures.ShrivelLoses` | cpu/msp430_common/malloc.c:236-271 | The same calls and the free on the byte array: afterwards a size field is wrong |
| `HeapFailures.ShortEntryHappens` | cpu/msp430_common/malloc.c:265-277 | A run that leaves a block whose free destroys nothing but puts a chunk on the list that is too small for its entry |
| `CircularList.SortRing` | core/clist.c:52-153 | On any ring and any comparison the relinking passes end and leave the ring that the passes on sequences give; the result is its last node |
| `CircularList.MergeRuns` | core/clist.c:94-135 | The inner loop appends the merge of the two runs while relinking, and leaves the rest of the ring in place |
| `CircularList.StepAlong` | core/clist.c:78-88 | The walk stops behind the run or at the end of the ring |
| `ListSort.SortIsStable` | core/include/clist.h:376-416 | For a comparison that orders the elements the result is sorted, has the same elements, and keeps equal ones in their old order |
| `ListSort.MergeStable` | core/clist.c:94-125 | Merging two sorted runs keeps equal elements in order, those of the first run first |
| `ListSort.PassRuns` | core/clist.c:75-151 | A pass over runs of width w leaves sorted runs of twice the width |
| `ListOps.List.Rpush` | core/include/clist.h:115-125 | Appends the node |
| `ListOps.List.Lpush` | core/include/clist.h:136-146 | Prepends the node |
| `ListOps.List.Lpop` | core/include/clist.h:156-171 | Removes and returns the first node, NULL for an empty list |
| `ListOps.List.Lpoprpush` | core/include/clist.h:186-191 | Moves the first node to the end |
| `ListOps.List.Lpeek` | core/include/clist.h:201-207 | Returns the first node or NULL |
| `ListOps.List.Rpop` | core/include/clist.h:230-242 | Removes and returns the last node, by turning the ring |
| `ListOps.List.FindBefore` | core/include/clist.h:256-270 | Returns the predecessor of a member, NULL for any other node |
| `ListOps.List.Find` | core/include/clist.h:284-293 | Returns a member itself, NULL for any other node |
| `ListOps.List.Remove` | core/include/clist.h:307-326 | Takes exactly the node out, or leaves the list unchanged and returns NULL |
| `ListOps.List.Sort` | core/include/clist.h:418-423 | The list keeps its nodes, with the list pointer at its last node; for a comparison that orders them it is sorted and equal ones stay in their old order |
| `ListOps.List.Count` | core/include/clist.h:432-444 | Counts the nodes |
| `Cib.Counters.Put` | core/include/cib.h:139-149 | Gives the next slot unless the buffer is full, for any number of past operations |
| `Cib.Counters.Get` | core/include/cib.h:93-100 | Gives the oldest slot unless the buffer is empty, for any number of past operations |
| `Cib.Counters.Peek` | core/include/cib.h:109-116 | Names the oldest slot and changes nothing |
| `Cib.Counters.Avail` | core/include/cib.h:69-72 | The wrapped difference is the number of entries |
| `Cib.Counters.Full` | core/include/cib.h:81-84 | Full exactly when as many entries as the size are in; size 0 is always full |
| `Cib.Queue.Push` | core/msg.c:42-51 | Buffer and array append the item unless full |
| `Cib.Queue.Pop` | core/msg.c:297-313 | Buffer and array give the oldest item, none if empty |
| `Cib.PowerTest` | core/include/cib.h:55-56 | The test of cib_init accepts exactly the powers of two, besides 0 |
| `Cib.SoundExactly` | core/include/cib.h:143-148 | For accepted sizes the signed comparison tells full from not full if and only if the size is at most 2^30 |
| `Cib.HalfRangeNeverFull` | core/include/cib.h:143-148 | The size 2^31 passes the test of cib_init and its full buffer is not refused |
| `Cib.MaskedIndex` | core/include/cib.h:96 | The masked 32-bit counter is the unwrapped count modulo the size |
| `BitArithm.LsbLoop` | core/include/bitarithm.h:152-163 | The shifting loop computes the number of the lowest set bit |
| `BitArithm.LsbFormsAgree` | core/include/bitarithm.h:146-151 | The De Bruijn lookup agrees with the loop for every non-zero 32-bit word |
| `BitArithm.LowestIsSet` | core/include/bitarithm.h:107-114 | That bit is set and no lower one is |
| `BitArithm.MsbLoop` | core/bitarithm.c:38-43 | The loop computes the number of the highest set bit |
| `BitArithm.MsbHalving` | core/bitarithm.c:30-37 | So do the five halvings |
| `BitArithm.BitsSet` | core/bitarithm.c:49-58 | Clearing the lowest bit until none is left counts the set bits |
| `RecursiveMutex.RunInv` | core/rmutex.c:34-149 | At every step of every interleaving owner, refcount and inner mutex fit the places of all threads |
| `RecursiveMutex.OwnerHolds` | core/rmutex.c:79-82 | If owner names a thread, that thread holds the inner mutex, so the unlocked read cannot mislead its reader |
| `RecursiveMutex.LocksExclude` | core/rmutex.c:34-114 | Only one thread has outstanding locks; it holds the inner mutex and refcount is their number |
| `RecursiveMutex.ReturnsAsHolder` | core/rmutex.c:34-114 | Whatever step of whichever thread ends a lock call: it is the caller's own, and either rmutex_trylock gives up without holding the mutex, or the caller is holder and owner with one lock more |
| `RecursiveMutex.CallsKeepTheirPromise` | core/rmutex.c:34-149 | In every interleaving, rmutex_lock returns with the caller holding the mutex and one lock more, rmutex_trylock so or without any, rmutex_unlock with one lock less and the mutex given up with the last |
| `RecursiveMutex.TryLockFailsOnlyIfHeld` | core/rmutex.c:34-114 | In every interleaving, rmutex_trylock fails only if another thread held the mutex during the call |
| `RecursiveMutex.TryFailsForOthers` | core/rmutex.c:84-91 | After the failed trylock, rmutex_trylock gives up exactly if the caller does not hold the mutex |
| `RecursiveMutex.RelockNeverWaits` | core/rmutex.c:66-77 | A thread that has the lock never waits for it |
| `RecursiveMutex.UnlockChecksHold` | core/rmutex.c:126-129 | The assertions of rmutex_unlock hold for every caller that has the lock |
| `RecursiveMutex.FreeWhenUnused` | core/rmutex.c:134-148 | When no thread is in a call or has a lock, the inner mutex is free |

## Left out

- Context save and restore, stack layout and the native port's immediate switch: a switch is `sched_run` plus the pending yield.
- `mutex_unlock` from an interrupt handler.
- `core/mbox.c`, `core/ringbuffer.c`, `core/priority_queue.c`, `core/lifo.c`: simpler than, or repeats of, what is here.
- `list_remove`, `cib_get_unsafe`, `cib_put_unsafe`, `msg_avail`, `msg_queue_print`, `clist_foreach`: variants of the operations here without checks, or that only read.
- `calloc`, alignment of heap addresses, and a heap limit derived from the stack pointer: the heap has a fixed end and is smaller than 0xfffe bytes.
- `cpu/`, `boards/` and start-up code other than `kernel_init`.
- DEBUG output, DEVELHELP checks, scheduler statistics, MPU and FPU support.
- KernelDriver.RunAll: asks for msg_init_queue sizes that cib can handle, 0 or a power of two up to 2^30; `cib_init` asserts a power of two, and `Cib.SoundExactly` says why not 2^31.
- KernelObject.Kernel.InitQueue: the array behind a queue is a new one; the source's caller passes its own.
- KernelObject.Kernel.Create: stack alignment and stack contents are not modelled, and a new thread's wait list of senders is empty because no list of a missing thread has entries.
- RecursiveMutex.RunInv: the inner mutex is a holder with a queue and direct hand-over, as `KernelTheorems.UnlockHandsOver` states; a waiter may join the queue at any position.
- HeapAllocator.Heap.Free: asks that four bytes from the block's header on lie inside the heap, as they do in every run (`HeapRuns.RunReaches`); so does HeapAllocator.Heap.Realloc.
- HeapRuns.RunKeeps: a run stops before a call that would leave the heap out of order; what later calls do to such a heap is not modelled.
- CircularList.SortRing: the width of the runs is unbounded; the source's int would overflow only for more nodes than memory can hold.
