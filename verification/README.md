# Verification of the reblessive runtimes

reblessive runs recursive functions as futures on a stack of its own. This project models its hard parts
in Dafny and proves what they promise.

- **The wake-up core of the tree scheduler.** The queue (`Queue`, `QueueRuns`, `QueueObject`) and the atomic
  waker (`AtomicWaker`, `AtomicWakerRuns`, `AtomicWakerObject`) are transition systems in which every atomic
  operation is one step, and classes whose methods may be interrupted between any two of those steps by any
  number of steps of other threads. The scheduler (the modules `Schedular...`) puts both inside one system, with
  reference-counted tasks, `queued` flags, task states, cancel tokens, wakers in flight and the poll loop. Its
  inductive invariant is proved once (`SchedularSafety`, `SchedularWake`, `SchedularPoll`) and read off over whole
  runs (`SchedularRuns`, `SchedularEnd`, with example runs in `SchedularWitness`). `SchedularObject` is the poll loop and
  `clear` as code over that system, `TaskList` the doubly linked all-list with its pointers, and `SchedularList` ties the
  two: every step of the system is taken together with what it does to the links. `SchedularCalls` and `SchedularLeak` say
  exactly when the parent is called and when a count is lost, and `SchedularYield` when a poll hands back early. `TreeRuntime`
  puts the scheduler, the tasks of the root stack and the dropping of the runner into one system; `TreeTurns` has its laws
  over runs, and `TreeWitness` a run from the beginning of a scope to the end.
- **The stack allocator** (`StackBlocks`, `StackAllocator`, `Powers`): addresses are integers, memory is a map over
  words that holds headers and back pointers, and the system places blocks anywhere, adjacent or not.
- **The stack executor** (`Programs`, `Flattened`, `Lifetimes`, `Stack`, `Runner`, `TreeFuture`): a task is a state
  whose code finishes, calls a sub-task and goes on with its value, or waits for something outside. `Programs` gives its meaning by direct
  recursion, `Flattened` the loop over a stack of tasks, and the classes the runtime itself, on top of the allocator.
- **The calculator** of the benchmark (`CalcGrammar`, `CalcReading`, `CalcParser`, `CalcEval`): its Pratt parser against a
  declarative grammar with binding powers, that grammar against the usual order of operators and against expressions
  written out, and its evaluator as a program of the executor.

The scheduler is a pure transition system because its properties are about interleavings; the objects beside it carry
the imperative form. Every class method is tied to the specification by its postcondition. A thread's place inside an
operation, and the history needed to state a property over runs, are fields of the state. The concurrent objects also
record the run they make, so that what is proved of runs holds of them.

Some promises hold only under a condition. Each condition is proved, with a run or an input where the promise fails:

- `pop` answers `Empty` with items pending exactly when a producer has swapped a node in behind the very tail of the
  consumer and did not link it yet (`QueueRuns.EmptyIsWrongExactly`). Those items may be of pushes that completed
  (`QueueRuns.EmptyDespiteCompletedPush`). `Inconsistant` is answered exactly when there is a node behind that tail whose
  link the pop did not see (`QueueRuns.InconsistentExactly`, `QueueRuns.InconsistentAnswered`).
- A `wake` after the call of `register` need not reach its waker. With all threads idle in the end, the waker was called
  exactly if at the compare-exchange of its `register` the waking bit was set or some thread was about to call that same
  waker, or a `fetch_or` came after it (`AtomicWakerRuns.CalledExactly`,
  `AtomicWakerRuns.WakeBeforeTheExchangeIsNotForTheNewWaker`).
- `push_cancellable` called between polls puts a task in the queue and wakes nobody. Nothing else leaves a task queued with
  an uncalled parent (`SchedularEnd.ParentIsWoken`, `SchedularWitness.OutsidePushTellsNobody`). Whatever is pushed, with
  all idle in the end the parent was called exactly if a wake held the waker's cell or was about to call that waker when
  the poll registered it, or a wake did its `fetch_or` later, or the poll called its parent itself
  (`SchedularCalls.ParentCalledExactly`).
- A task no one can come back to is freed exactly if it was not drained through the Cancelled branch of `poll`, and its entry
  is not in a queue that has gone with the scheduler and all operations under way. Otherwise a count remains for ever
  (`SchedularEnd.FreedUnlessLeaked`, `SchedularLeak.ForgottenForEver`; runs in `SchedularWitness.CancelledTaskLeaks` and
  `SchedularWitness.LateWakerStrands`). The second case needs an entry, or a waker under way that will still push, when the
  scheduler is dropped (`SchedularLeak.EntryAfterDropExactly`, `SchedularLeak.QuietDropStrandsNothing`).
- A run of number characters is taken exactly when it is a number whose exponent mark, if any, is its second character.
  So numbers with a later mark are refused, and so is every exponent with a sign, because the run ends before the sign
  (`CalcGrammar.AcceptedIff`, `CalcGrammar.LateExponentIsRefused`, `CalcGrammar.SignedExponentIsRefused`).

## Model

| member | source | states |
|---|---|---|
| QueueRuns.Fifo | src/tree/schedular/queue.rs:67-112 | over any interleaving of pushes and pops, the values popped so far followed by the pending ones are the items swapped into the head, in order: nothing lost, duplicated or reordered |
| QueueRuns.PoppedNodeIsFree | src/tree/schedular/queue.rs:92-108 | a node that pop returns is in no chain and the target of no outstanding link, so it may be pushed again at once |
| QueueRuns.SkippedStubIsFree | src/tree/schedular/queue.rs:82-104 | while the stub is not in the chain, no producer pushes it and no outstanding link goes to it |
| QueueRuns.StubIsFreeUntilPushed | src/tree/schedular/queue.rs:82-104 | over runs: from the moment the tail moves off the stub until the consumer swaps it in again, in that pop and between pops, the stub is not in the chain and nobody refers to it |
| QueueRuns.StubIsOut | src/tree/schedular/queue.rs:82-102 | at the places of pop that push the stub, it is not in the chain |
| QueueRuns.ChainHasNoDuplicates | src/tree/schedular/queue.rs:67-112 | no node, the stub included, is in the chain twice |
| QueueRuns.AnswersExplained | src/tree/schedular/queue.rs:82-111 | an Empty answer with items pending, and every Inconsistant answer, overlaps a producer between its swap and its link |
| QueueRuns.OverlapWitness | src/tree/schedular/queue.rs:67-112 | the overlap is a fact of the run: since the start of this pop there was a state with a producer between swap and link |
| QueueRuns.EmptyMeansEmpty | src/tree/schedular/queue.rs:82-112 | if no producer was mid-push at any time during the pop, Empty means that nothing is pending and Inconsistant is not answered |
| QueueRuns.EmptyDespiteCompletedPush | src/tree/schedular/queue.rs:82-85 | a run in which pop answers Empty although a push completed before it began |
| QueueRuns.EmptyIsWrongExactly | src/tree/schedular/queue.rs:82-111 | items are pending after an Empty answer if and only if a producer has swapped a node in behind the very tail of the consumer and did not link it yet |
| QueueRuns.InconsistentExactly | src/tree/schedular/queue.rs:97-100 | a step of pop answers Inconsistant if and only if it compares the head, and a node is behind the tail of the consumer |
| QueueRuns.InconsistentAnswered | src/tree/schedular/queue.rs:97-100 | a run in which pop answers Inconsistant with a pushed item in the queue |
| Queue.StepInv | src/tree/schedular/queue.rs:67-112 | every atomic operation keeps the invariant of half-linked chains, producers, stub and pop |
| QueueObject.MpscQueue.constructor | src/tree/schedular/queue.rs:58-62 | the queue starts with the stub as head and tail |
| QueueObject.MpscQueue.Push | src/tree/schedular/queue.rs:67-73 | whatever the other threads do meanwhile, the item has been swapped in during the call and no link of it is outstanding at the end |
| QueueObject.MpscQueue.Pop | src/tree/schedular/queue.rs:78-112 | whatever the producers do meanwhile, exactly the answered item is appended to what was popped, the node is free again, the answers Empty and Inconsistant are explained, and the answer is the one of the last step taken |
| QueueObject.MpscQueue.PopLast | src/tree/schedular/queue.rs:102-111 | the stub pushed behind the last node loses no item |
| AtomicWaker.StepInv | src/tree/schedular/atomic_waker.rs:181-323 | every atomic operation keeps the agreement of the two bits with who is in the critical section, and the responsibility for a wake with who will call the waker |
| AtomicWakerRuns.BitsTellTheHolder | src/tree/schedular/atomic_waker.rs:181-323 | the registrar is in the critical section exactly when its bit is set, and else some waker exactly when the other bit is; at most one is; the failed release sees both bits, and the waker taken then is there |
| AtomicWakerRuns.WakeIsDelivered | src/tree/schedular/atomic_waker.rs:181-323 | if a fetch_or of wake follows the compare-exchange of the last register, then once all threads are idle the registered waker has been called since that register |
| AtomicWakerRuns.CalledExactly | src/tree/schedular/atomic_waker.rs:181-323 | once all threads are idle, the registered waker has been called since its register if and only if at the compare-exchange the waking bit was set or a thread was about to call this waker, or a fetch_or of wake came later |
| AtomicWakerRuns.CalledOncePerRegister | src/tree/schedular/atomic_waker.rs:169-175 | over runs: a waker is called at most as often as it was registered |
| AtomicWakerRuns.CopiesMove | src/tree/schedular/atomic_waker.rs:181-323 | every step that calls a waker uses up one copy of it in the cell, with a thread or with the registrar, and only register makes one |
| AtomicWakerRuns.WakeBeforeTheExchangeIsNotForTheNewWaker | src/tree/schedular/atomic_waker.rs:182-262 | a run in which a wake before the compare-exchange of register, all quiet in the end, has not called the new waker |
| AtomicWakerObject.WakerCell.Register | src/tree/schedular/atomic_waker.rs:181-276 | under any interference by wakers, the steps of the call begin with its compare-exchange, and at the end the given waker was called, is about to be, or is in the cell with every signal since still held by a waking thread; its failure points are not reached |
| AtomicWakerObject.WakerCell.StoreAndRelease | src/tree/schedular/atomic_waker.rs:187-247 | either the lock is given up with the waker in the cell, or a wake came meanwhile: both bits are set and the registrar goes on to reclaim |
| AtomicWakerObject.WakerCell.WakeReclaimed | src/tree/schedular/atomic_waker.rs:219-244 | after a failed release the stored waker is taken out of the cell, which stays empty, the bits are cleared and the waker is called |
| AtomicWakerObject.WakerCell.Wake | src/tree/schedular/atomic_waker.rs:281-285 | under any interference, the first step is the fetch_or of the wake, and every waker its thread got hold of since it has called |
| AtomicWakerObject.WakerCell.Take | src/tree/schedular/atomic_waker.rs:295-323 | the first step is the fetch_or; a taken waker is the one the thread now has to call |
| SchedularSafety.StepInv | src/tree/schedular/mod.rs:39-395 | every step of every thread keeps the invariant: counts, claims to queue entries, list, states and micro-states of queue and waker |
| SchedularRuns.CountIsHolders | src/tree/schedular/mod.rs:202-261 | in every reachable state the strong count of a task is the number of its holders (list, queue entry, wakers also mid-wake, token, poller, and one if it was drained as cancelled), and no holder refers to a freed task |
| SchedularRuns.FreedIsGone | src/tree/schedular/mod.rs:258-275 | no step changes the record of a task whose count is zero, and no one holds it |
| SchedularRuns.OneEntry | src/tree/schedular/mod.rs:57-73 | two claims to a queue entry of one task are the same claim, whoever has it finds the queued flag true, and the flag of a task that is not done is true only while someone has it |
| SchedularRuns.AssertHolds | src/tree/schedular/mod.rs:336-338 | the assert on the swapped queued flag in poll never fails |
| SchedularRuns.StoreIsFree | src/tree/schedular/waker.rs:44-45 | the node a waker or a cancel pushes is free, as push demands of its caller |
| SchedularRuns.NoOperationIsStuck | src/tree/schedular/waker.rs:23-49 | in every reachable state every operation under way can take its next step |
| SchedularRuns.WakersCanBeUsed | src/tree/schedular/waker.rs:23-70 | in every reachable state a waker in anyone's hands can be dropped, cloned, and used to wake by any idle thread |
| SchedularRuns.CallerCanCall | src/tree/schedular/mod.rs:202-394 | in every reachable state between polls whoever has the scheduler can push, poll and clear, and drop any token |
| SchedularRuns.StatesMoveForward | src/tree/schedular/mod.rs:152-160 | over a run the state of a task only moves from Running to Cancelled to Done |
| SchedularRuns.DroppedExactlyOnce | src/tree/schedular/mod.rs:321-394 | a future is dropped exactly once, when its task stops running, and is driven only before |
| SchedularRuns.ListIsTheRemainingTasks | src/tree/schedular/mod.rs:225-262 | the list holds exactly the tasks not yet removed, and len is its length between pushes |
| SchedularHolders.CountsKept | src/tree/schedular/mod.rs:202-262 | if the holders of one task change and its count changes by as much, all counts still equal their holders |
| SchedularHolders.ClaimsKept | src/tree/schedular/mod.rs:57-73 | if the claim to one queue entry moves together with the queued flag, there is still at most one claim for each task |
| SchedularHolders.TryQueueMoves | src/tree/schedular/waker.rs:26-36 | the compare-exchange of the queued flag gives the claim to the entry to the thread that set it, and moves no count |
| SchedularHolders.UpgradeMoves | src/tree/schedular/waker.rs:39-42 | if the queue has gone the thread loses its claim and keeps its count, which it releases next |
| SchedularHolders.SwapMoves | src/tree/schedular/waker.rs:44-48 | the head swap hands count and claim of the thread over to the queue entry |
| SchedularHolders.PopMoves | src/tree/schedular/mod.rs:300-317 | a pop hands count and claim of the entry over to the poller |
| SchedularHolders.DispatchMoves | src/tree/schedular/mod.rs:321-341 | the claim ends; the count from the queue is left behind if the task is cancelled, released if it is done, and kept by the poller as that of its waker if it runs |
| SchedularWake.WakeStep | src/tree/schedular/mod.rs:295-365 | every step keeps it true that a queue entry of a pending poll has told the parent or will |
| SchedularWake.NoLostWake | src/tree/schedular/mod.rs:295-365 | after a poll answered Pending, with no thread mid-operation and nothing pushed from outside since, a task in the queue means that the waker registered by that poll was called |
| SchedularEnd.ParentIsWoken | src/tree/schedular/mod.rs:295-365 | over runs: the call of that waker is a step of the run after the registration |
| SchedularEnd.PushFromOutsideIsSilent | src/tree/schedular/mod.rs:217-220 | a push between polls runs to its end, leaves its task in the queue and changes nothing in the waker |
| SchedularWitness.OutsidePushTellsNobody | src/tree/schedular/mod.rs:217-220 | a run that ends idle with a task in the queue and the waker of the last, pending poll uncalled |
| SchedularCalls.ParentCalledExactly | src/tree/schedular/mod.rs:295-365 | over runs: with all idle in the end, the waker the last poll registered has been called since if and only if at its registration the waking bit was set or a thread was about to call it, or since then a wake did its fetch_or or poll called it itself, whatever else happened |
| SchedularCalls.WakerMoves | src/tree/schedular/atomic_waker.rs:181-323 | every step of the scheduler is at most one step of the atomic waker, or the call of poll itself |
| SchedularPoll.PollStepInv | src/tree/schedular/mod.rs:297-366 | every step keeps the bounds on drives and popped entries of the current poll |
| SchedularEnd.DrivesAreBounded | src/tree/schedular/mod.rs:297-366 | with L tasks at its start and n pushed during it, a poll drives at most 2(L + n) futures |
| SchedularPoll.PollTerminates | src/tree/schedular/mod.rs:297-366 | every step of poll that does not return raises a measure that is bounded by the tasks |
| SchedularPoll.DrainedStep | src/tree/schedular/mod.rs:328-332 | a done task whose entry was drained never gets another |
| SchedularEnd.ReadyMeansEmpty | src/tree/schedular/mod.rs:303-311 | poll answers Ready only when no task is left |
| SchedularEnd.PendingMeansMore | src/tree/schedular/mod.rs:301-365 | poll answers Pending only with a task left in the list, or having called its parent |
| SchedularYield.YieldsExactly | src/tree/schedular/mod.rs:349-363 | after a drive poll hands back to its parent, which it has called, if and only if the future was pending and, counted over the run since this poll began, more than two of the futures it drove were queued again at once, or more futures were driven than the list is long |
| SchedularEnd.ClearLeavesNothing | src/tree/schedular/mod.rs:369-394 | with no other thread mid-operation, clear leaves list and queue empty, every future dropped exactly once, and only tokens, wakers and the counts lost to cancelled entries referring to tasks |
| SchedularClear.ClearAdvances | src/tree/schedular/mod.rs:369-394 | every step of clear lowers a measure: of the list whatever happens beside it, of the queue if no other thread is mid-operation |
| SchedularObject.TreeSchedular.ClearList | src/tree/schedular/mod.rs:371-376 | the first loop ends with no task in the list, whatever the dropped futures do |
| SchedularObject.TreeSchedular.Clear | src/tree/schedular/mod.rs:369-394 | with no other thread mid-operation clear ends; then list and queue are empty, every task is done, and its future was dropped exactly once |
| SchedularEnd.FreedUnlessLeaked | src/tree/schedular/mod.rs:264-275 | a task no one can come back to is freed if and only if it was not drained in the Cancelled branch and its entry is not in a queue that has gone; else exactly one count remains for each of these |
| SchedularWitness.CancelledTaskLeaks | src/tree/schedular/mod.rs:322-326 | a run that ends idle with no holder of a done task and its count at one |
| SchedularWitness.LateWakerStrands | src/tree/schedular/waker.rs:38-48 | a run in which a waker upgrades the queue before the scheduler is cleared and dropped and pushes after that: all is idle, nobody holds the task, its entry is in a queue that has gone and its count is one |
| SchedularLeak.ForgottenForEver | src/tree/schedular/mod.rs:264-275 | no step changes the record of such a task, and no one comes to refer to it |
| SchedularLeak.EntryAfterDropExactly | src/tree/schedular/waker.rs:38-48 | once the scheduler is dropped, an entry is or can come to be in its queue if and only if one is there or some waker is past its upgrade and before its head swap, or before its upgrade while another operation holds the queue |
| SchedularLeak.QuietDropStrandsNothing | src/tree/schedular/mod.rs:397-400 | dropped with no entry in the queue and no operation under way, a scheduler strands no entry in any continuation |
| SchedularObject.TreeSchedular.Poll | src/tree/schedular/mod.rs:281-367 | under any steps of other threads and of the futures: Ready means no task left; Pending means that the given waker is registered, that a task is left or the waker was called, and that it was called if all is quiet and a task is queued; drives at most 2(L + n); it terminates |
| SchedularObject.TreeSchedular.PopTask | src/tree/schedular/mod.rs:300-317 | one pop, to a task or to the return of poll, keeps all invariants and makes progress |
| SchedularObject.TreeSchedular.HandleTask | src/tree/schedular/mod.rs:319-365 | a popped task is driven, removed or released; polling goes on nearer to its end, or returns |
| SchedularObject.TreeSchedular.DriveTask | src/tree/schedular/mod.rs:349-365 | a driven future may do anything its wakers, tokens and pushes allow, and the poll still reaches its next pop or returns |
| SchedularTurns.OwnReaches | src/tree/schedular/mod.rs:297-366 | a step of poll either brings it nearer to its end or returns with the promises of Ready and Pending |
| SchedularTurns.NestedAdvances | src/tree/schedular/mod.rs:39-75 | a cancel inside a future always comes to its end |
| TaskList.AllTasks.PushTaskToAll | src/tree/schedular/mod.rs:227-237 | the links describe the list with the new task in front |
| TaskList.AllTasks.PopTaskAll | src/tree/schedular/mod.rs:239-262 | the links describe the list without the task; the task is done, flagged, its future dropped if it was running, one count released, and no other task is changed |
| TaskList.AllTasks.CountTask | src/tree/schedular/mod.rs:220-220 | a task put in the list is counted after its push |
| TaskList.AllTasks.Detach | src/tree/schedular/mod.rs:246-261 | the list is the one without the task, counted once less, and no record is changed |
| TaskList.AllTasks.Unlink | src/tree/schedular/mod.rs:246-256 | closing the neighbours and ends over a position leaves links that describe the rest, in order |
| TaskList.AllTasks.IsEmpty | src/tree/schedular/mod.rs:195-197 | the first link is null exactly when no task is in the list |
| TaskList.AllTasks.ClearAll | src/tree/schedular/mod.rs:369-376 | the loop empties the list and retires every task in it exactly once |
| TaskList.WithoutIsSplit | src/tree/schedular/mod.rs:246-256 | in a list without repetition, removing a task leaves what was before it and what was after it |
| SchedularList.LinkedSchedular.Apply | src/tree/schedular/mod.rs:202-262 | with every step of the system the linked list is kept: its tasks are those of the set all, one body each, and its length field is that of the system; a push puts one in front, a removal takes out the one task that leaves |
| StackBlocks.LiveRegionsAreInside | src/allocator.rs:68-112 | every live region and the back pointer under it lie inside one block, strictly above its header, aligned as asked |
| StackBlocks.LiveRegionsAreDisjoint | src/allocator.rs:68-112 | two live regions, each with its back pointer, share no byte |
| StackBlocks.WithinFindsOwner | src/allocator.rs:44-48 | despite its inclusive end and adjacent blocks, the test finds the newest back pointer in a block exactly when the newest region is there |
| StackBlocks.OlderBlocksAreSmaller | src/allocator.rs:144-161 | all older blocks together are smaller than the newest, also after blocks between were unlinked |
| StackBlocks.PoppedKeeps | src/allocator.rs:118-122 | the word under the newest region holds the top from before it was made |
| StackBlocks.UnlinkedKeeps | src/allocator.rs:135-139 | taking out an empty block behind the newest leaves every live region and every header and back pointer in force |
| StackBlocks.PushedKeeps | src/allocator.rs:101-109 | a region put below the newest and above the header, its back pointer written, keeps all others |
| StackBlocks.GrownKeeps | src/allocator.rs:144-161 | a block in front keeps all live regions |
| StackBlocks.ScribbledKeeps | src/allocator.rs:61-66 | whatever is written into live regions, no header or back pointer changes |
| StackAllocator.StackAllocator.AllocLayout | src/allocator.rs:68-112 | the new region becomes the newest, no other changes; a block is added exactly when the newest has no room, and the region wastes less than its worst case |
| StackAllocator.StackAllocator.PopDealloc | src/allocator.rs:118-141 | exactly the newest region goes and top is what it was before it; the block behind the newest is given back exactly when both are then empty, and nothing live is in it |
| StackAllocator.StackAllocator.Place | src/allocator.rs:98-111 | the region carved out is aligned, above the header and below what is in use, for any size and power-of-two alignment |
| StackAllocator.StackAllocator.GrowInitial | src/allocator.rs:164-174 | the first block is a power of two that fits the request and its header, less than twice that |
| StackAllocator.StackAllocator.GrowAllocNewTop | src/allocator.rs:144-161 | the new block is a power of two, at least double the one behind, fits the request, is the one between that block and the request together and twice that, and less than twice (used there + twice the request + header) |
| StackAllocator.StackAllocator.AllocNewBlock | src/allocator.rs:180-202 | wherever the system places the block, it is apart from all others and has its header |
| StackAllocator.StackAllocator.DeallocOldBlock | src/allocator.rs:205-211 | exactly the words of the block are given back |
| StackAllocator.StackAllocator.Scribble | src/allocator.rs:51-66 | users may write into their regions as they like |
| StackAllocator.StackAllocator.Drop | src/allocator.rs:214-224 | every block is given back |
| StackAllocator.StackAllocator.Top | src/allocator.rs:30-32 | the address of the newest live region, if there is one |
| StackAllocator.Aligned | src/allocator.rs:98-102 | rounding down to the larger of alignment and word aligns to both |
| Powers.NextPowerIsLeast | src/allocator.rs:149-154 | the next power of two is the least one not below |
| Flattened.LoopRefinesRecursion | src/stack/mod.rs:153-222 | the loop over the stack makes the activations of direct recursion in the same order, each at a stack depth that is the depth of the recursion, and ends with the same value |
| Flattened.LoopEndsIffRecursionDoes | src/stack/runner.rs:78-84 | the loop ends exactly when the recursion does |
| Flattened.PollsOfTasks | src/stack/runner.rs:51-84 | with N tasks and W waits for something outside the loop has ended exactly after 2N-1+W polls, with the value of the recursion, and before that each poll makes its visit |
| Flattened.WaitsOfVisits | src/stack/runner.rs:134-152 | as many visits wait as the recursion waits |
| Flattened.TreeIsRun | src/stack/mod.rs:175-222 | over any waiting tasks, a task makes its visits and hands its value to the task below |
| Flattened.RunIsTree | src/stack/mod.rs:175-222 | a task whose polls end unfolds into a recursion that ends |
| Programs.TreeOf | src/stack/future.rs:45-97 | a recursion that ends has an unfolding with its value and its visits |
| Programs.TreeRecurses | src/stack/future.rs:45-97 | every unfolding is a recursion that ends |
| Programs.TreeIsUnique | src/stack/future.rs:45-97 | a recursion has one unfolding only |
| Programs.VisitsOfTasks | src/stack/runner.rs:41-76 | N tasks with W waits make 2N-1+W visits |
| Lifetimes.AllDroppedOnce | src/stack/mod.rs:259-290 | once nothing is live, every future was dropped exactly once, and after all its children |
| Lifetimes.DroppedOk | src/stack/mod.rs:224-229 | dropping the newest future keeps every dropped future behind its children |
| Lifetimes.BornOk | src/stack/mod.rs:139-151 | creating a future above the newest keeps the order of drops |
| Stack.DeliveredIsDrive | src/stack/future.rs:62-79 | writing the result to the place and removing the task is the poll of a task that finishes |
| Stack.CalledIsDrive | src/stack/future.rs:47-80 | the waiting future and the pushed task are the poll of a task that calls |
| Stack.WaitedIsDrive | src/stack/mod.rs:186-192 | a future that waits for something outside is the poll of a task that waits |
| Stack.Stack.EnterFuture | src/stack/mod.rs:97-115 | an idle stack becomes one with a place and the root, each in a region of its own layout |
| Stack.Stack.AllocFuture | src/stack/mod.rs:139-151 | a new region with the layout of this very future, the length one more, the future recorded as child of the newest |
| Stack.Stack.SlotsAreApart | src/stack/mod.rs:117-151 | the region of every slot has the size and alignment its future or place asked for, and no two of them share a byte |
| Stack.Stack.PushTask | src/stack/mod.rs:211-222 | the same, from Base, and the state tells of a new task |
| Stack.Stack.DriveTask | src/stack/future.rs:45-97 | a poll runs the task to its end and fills the place of its parent, or to its next run and pushes that, or to a wait; the newest task is never waiting for a run |
| Stack.Stack.DriveTopTask | src/stack/mod.rs:175-209 | one step of the loop: the pure machine makes one poll, the answer is Pending exactly if the task waits for something outside, the length stays the number of live regions, each with the layout its task began with, the state is Base again, one future is born or dropped or neither |
| Stack.Stack.PopTask | src/stack/mod.rs:224-229 | the newest future is dropped and its region freed |
| Stack.Stack.PopCancelTask | src/stack/mod.rs:231-235 | the newest task is dropped with its region, and the state is what it was before |
| Stack.Stack.DropTaskInline | src/stack/future.rs:101-124 | a future dropped while its run is gone does not take another task off the stack |
| Stack.Stack.TryGetResult | src/stack/mod.rs:158-173 | there is a result exactly when no task is left; it is taken once, and the stack is idle |
| Stack.Stack.Clear | src/stack/mod.rs:259-290 | however far the run got: no region, length 0, every future dropped from the newest down, the result dropped if it was there and needs it |
| Stack.Stack.DropTasks | src/stack/mod.rs:269-276 | the futures go from the newest to the root, each with its region |
| Runner.Runner.Step | src/stack/runner.rs:51-71 | answers the result exactly when no task is left, and otherwise makes one poll of the loop, which is not pending |
| Runner.Runner.StepAsync | src/stack/runner.rs:109-127 | the same for tasks that may wait: the poll is pending exactly if the task waits |
| Runner.Runner.FinishAsync | src/stack/runner.rs:134-152 | one poll drives the recursion exactly up to its next wait and is pending, or to its end and answers its value |
| Runner.Runner.Finish | src/stack/runner.rs:78-84 | without waits, returns the value of the recursion after 2N-1 polls and leaves the stack idle; the result is returned once |
| Runner.Runner.Depth | src/stack/runner.rs:87-89 | the number of tasks on the stack |
| Runner.Runner.Drop | src/stack/runner.rs:92-99 | after any number of steps the stack is empty, its state Base, its allocator without a live region, and no result is returned |
| TreeFuture.ScopeStkFuture.Poll | src/tree/future.rs:163-189 | if the parent yields, the waker is woken and nothing else happens; otherwise one poll drives the recursion up to its next wait for something outside and is pending, or to its end, answers its value and leaves its stack idle |
| TreeRuntime.RootOnlyWhenEmpty | src/tree/mod.rs:78-90 | over runs: the turn goes to the root only in a state where no task is left in the scheduler |
| TreeTurns.DriveGivesTheTurn | src/tree/mod.rs:78-90 | over runs: between a drive and the next rest of the driver the root was driven, or the poll of the scheduler ended Pending with a task left or the parent called |
| TreeTurns.ScopeFindsItsResult | src/tree/future.rs:70-124 | over runs: at any time after a drive of the root began, every living scope that was there when it began has its place filled |
| TreeTurns.OwnerIsWhoBegan | src/tree/future.rs:70-110 | over runs: the owner of a scope is for ever the task that was driven when the scope began, or else the task on top of the root stack |
| TreeTurns.FramesAreOpenCalls | src/stack/mod.rs:211-229 | over runs: there is a frame for the root and for every call that has not finished, all different |
| TreeTurns.FrameStays | src/stack/mod.rs:211-229 | over runs: a frame stays in its position for as long as the stack is higher than that position |
| TreeTurns.FrameComesOnce | src/stack/mod.rs:211-229 | over runs: a frame that has gone never comes back |
| TreeWitness.ScopeRunsToItsEnd | src/tree/mod.rs:78-90 | a run in which the root begins a scope, a poll drives it to its result, the root is driven again and finds it, and the runner is dropped with no task, frame or count left |
| TreeRuntime.EndedExactly | src/tree/future.rs:70-134 | the drop counter of a task is one exactly if one step of the run ended it (its last poll, the cancel of its scope, or the clear), no task ends twice, and a place is filled exactly if that step was the last poll |
| TreeRuntime.DroppedBeforeItsOwner | src/tree/future.rs:128-136 | once the frame or task whose future holds the place of a scope is gone, the future of the scope was dropped |
| TreeRuntime.ClearedBeforeTheFrames | src/tree/runner.rs:92-99 | dropping the runner: when the clear of the scheduler ends, every scope future was dropped exactly once, every frame of the root is still there, and the queue is empty if no thread is mid-operation |
| TreeRuntime.FramesStay | src/tree/runner.rs:92-99 | from the drop of the runner on, no frame goes before one above it is finished |
| TreeRuntime.RunnerLeavesNothing | src/tree/runner.rs:92-99 | in the end no task is left in the scheduler and no frame on the root, and every future was dropped exactly once |
| TreeRuntime.StepTreeInv | src/tree/mod.rs:78-90 | every step of driver, scheduler and threads keeps it true that a running scope has a place in a future that exists, and that a living scope has its result exactly when its task is done |
| CalcGrammar.ParseIsTheReading | benches/calc.rs:76-179 | the parse gives a tree and a rest exactly when the tree read in order is what was consumed, respects the binding powers with left association, and the next token is no operator as strong as the bound |
| CalcGrammar.ReadingIsUnique | benches/calc.rs:76-179 | there is at most one such tree |
| CalcGrammar.ParseReads | benches/calc.rs:76-179 | soundness of the parse |
| CalcGrammar.TreeIsParsed | benches/calc.rs:81-178 | a tree that respects the bound is parsed back from its tokens before any rest it can stand in front of |
| CalcReading.ParsedIsOrdered | benches/calc.rs:76-179 | at bound 0 the parse gives a tree exactly when its tokens in order are what was consumed, its numbers are taken, no operator comes next, and without parentheses no sum is an operand of a product or power or on the right of a sum, no product is on the right of a product or an operand of a power, a power has no operator on its right, and a sign has none under it |
| CalcReading.WrittenIsParsed | benches/calc.rs:76-179 | every such tree, its tokens written out with any one of the five blanks after each, is read back as it was |
| CalcReading.NumeralIff | benches/calc.rs:132-132 | what the conversion takes: digits with at most one dot, not a dot alone, and after an exponent mark digits to the end |
| CalcGrammar.AcceptedIff | benches/calc.rs:113-133 | a run of number characters is taken exactly when it is a numeral and has no exponent mark beyond its second character; then the number is the run as written |
| CalcGrammar.LateExponentIsRefused | benches/calc.rs:118-131 | 12e5 is a numeral and is refused |
| CalcGrammar.SignedExponentIsRefused | benches/calc.rs:113-131 | any input whose first run of number characters ends in an exponent mark is refused |
| CalcGrammar.SignedExponent | benches/calc.rs:113-131 | 1e-5 is refused |
| CalcReading.DecimalsAreTaken | benches/calc.rs:51-53 | digits of any number are taken, with a dot before, between or behind them or none |
| CalcReading.ExponentIsTaken | benches/calc.rs:51-53 | a digit, either mark and digits are taken as a number |
| CalcReading.StrangeIsRefused | benches/calc.rs:108-136 | a character that is no blank, digit, dot, mark, sign or opening parenthesis is refused where an operand has to begin |
| CalcGrammar.RunLength | benches/calc.rs:117-117 | the longest run of number characters in front |
| CalcParser.Parse | benches/calc.rs:76-179 | terminates on every input; fails exactly when the parse of the tokens does, and otherwise gives its tree and leaves its rest, before no blank |
| CalcParser.ParseOperand | benches/calc.rs:81-138 | the first loop: blanks skipped, then exactly the operand of the token parse |
| CalcParser.ParseOperators | benches/calc.rs:140-178 | the second loop: exactly the operators and right operands of the token parse |
| CalcParser.ReadNumber | benches/calc.rs:113-131 | consumes exactly the run, and collects its characters with the marks seen ahead doubled |
| CalcEval.EvalOnTheStack | benches/calc.rs:181-204 | evaluated on the stack, an expression gives its value after twice its nodes less one polls, and never has more tasks on the stack than its height |
| CalcEval.EvalUnfolds | benches/calc.rs:181-204 | the evaluator unfolds into one task for each node |

## Left out

- Weak memory orderings: every atomic operation is one sequentially consistent step.
- Raw pointer casts, vtables, pinning, lifetimes and thread-locals: a future is an abstract program or a task id, and "the current stack" is the object a method is called on.
- Addresses of async contexts (`is_rebless_context`, `set_rebless_context`) and with them the branch of the stack future that also wakes a foreign waker.
- Unwinding. A failing assert or unwrap is a point proved unreachable, so the deferred removal in `poll` only runs at the end of its scope.
- Allocation failure, address-space overflow and the limit on block sizes: sizes and addresses are unbounded. `AlignDown` is arithmetic, which for a power of two is what the source's masking does.
- TaskList.AllTasks.PushTaskToAll: requires the task's own `prev` to be the null it was created with, which the code relies on. Records of tasks in the list (state, flag, count) are kept in step with the system only as far as `TaskList` itself changes them.
- The order of the flag store and the state change at the start of `pop_task_all`: they are one step, and the code that the dropped future runs follows it. Task ids are never used again, so a freed task is one whose count is 0, not memory that is reused.
- Concurrent calls to `register`, and dropping a task's own cancel token while that task is driven.
- The drop of a scheduler is a step that asks for a `clear` that has ended with no push and no poll that found tasks since, because the code always clears first; other threads may act between the two.
- SchedularObject.TreeSchedular.Clear: other threads take no steps beside it. `clear` racing with a producer that is mid-push is not claimed to finish, since it only spins then.
- SchedularObject.TreeSchedular.Poll: takes a bound on the tasks ever created, because futures that push for ever keep a poll going for ever.
- SchedularEnd.ParentIsWoken: excludes tasks pushed from outside since the last poll, for which it is false.
- Runner.Runner.Finish: takes the unfolding of the recursion, so it says nothing of recursions that do not end; `Flattened.LoopEndsIffRecursionDoes` says that the loop does not end either. `Finish` and `Step` are for tasks that wait for nothing outside, as their documentation demands; otherwise the code panics.
- Stack.Stack.DropTaskInline: requires that a task which still awaits its run is dropped only while cancelling. Otherwise the run would take another task off the stack; that the runtime never does so is what its callers prove.
- Runs that are polled once and then dropped by the task that made them: tasks await the runs they start. `Stack.Stack.PopCancelTask` is what happens to the stack then, and that the state goes on telling of a new task.
- `yield_now` as a suspension point: the code never suspends there, so the Yield state is only an unreachable branch of the driver, and a scope's own stack never yields. What tasks wait for outside, and who polls them again; stub wakers.
- In the tree runtime, the values in places and the code of the frames: `TreeRuntime` says whose turn it is, which futures hold which places and which places are filled, and `Stack` what a drive of a stack does. That a future which is dropped drops its scopes first is how the scope future is written, and a condition of the steps that end a drop there. Dropping the whole runtime after the runner is not a step of it.
- Floating-point arithmetic and the value of a numeral: a number is kept as its characters, and the evaluator is over any arithmetic. That the conversion accepts digits with at most one dot and an optional exponent is taken from its documentation.
- The generator of benchmark expressions, and the example calculator, whose loops over blanks differ.
