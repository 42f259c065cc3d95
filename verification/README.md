# Verified models of the threading guide's concurrent algorithms

The guide's example programs contain small concurrent algorithms: closing bounded
queues and the pipeline, thread pool and active object built on them, lock-free
stacks, a work-stealing pool, lock protocols, compare-and-swap loops and lazy
initialisation. This project models each as a transition system and proves what
holds in every run, for any number of threads, items, stages, locks and attempts and
any capacity. The numbers in the demos are parameters here.

`dafny verify dfyconfig.toml` checks the whole project.

## How the models are built

* A `State` holds the shared variables, one program counter a thread, and ghost
  history such as the sequences of pushed and popped items. An `Action` is one step:
  a critical section, an atomic operation, or a notification made outside the lock.
  `Next` lets any enabled action happen, so a statement about all runs is one about
  all schedules.
* A condition variable follows section 33.5 of ISO C++17. A waiter is *asleep*, then
  *woken* by a notification or spuriously, and tests its predicate again when it gets
  the lock, which another thread may get first. A notification that the code gives
  after unlocking is *owed* until it is given. `Proper` leaves the spurious wakeups
  out, for statements about states in which nothing but those can happen.
  compare_exchange_weak may fail spuriously (section 32.6.1 of ISO C++17), and so may
  try_lock.
* Each module also holds a class with the source's own fields. Its methods, one an
  atomic step, change the fields in place, keep the invariant, and are proved to take
  exactly the step of the specification, so that every theorem about runs is about
  sequences of their calls. Each method also says outright, without the specification,
  what becomes of every field that it may change.
* `Runs.dfy` has runs, invariants of runs, measures, and sums over threads;
  `Waiting.dfy` has what a notification does to the threads that wait; `Items.dfy` has
  logs of items and their producers.

| file | models |
|---|---|
| MpmcQueue.dfy | the closing bounded queue with many producers and consumers, in both variants (notify under the lock, notify after it) |
| LockFreeStack.dfy | the Treiber stack and the tagged stack, with a heap in which nodes may be recycled |
| Pipeline.dfy | a pipeline of any number of stages over bounded queues |
| WorkStealing.dfy | the work-stealing pool |
| ThreadPool.dfy | the thread pool and its shutdown |
| OrderedLocks.dfy | locking two mutexes by address, the unordered pair, and the dining philosophers |
| RetryLocks.dfy | the two try_lock retry loops |
| FairRwLock.dfy | the reader/writer lock with a gate for readers |
| CasLoops.dfy | fetch-and-add and maximum built from compare-and-swap |
| ActiveObject.dfy | the account served by its own worker thread |
| RingBuffer.dfy | the circular buffer in C, on a real array |
| DoubleChecked.dfy | the double-checked getter |

## Where the prose and the code differ

The models follow the code.

* examples/04_pitfalls/06_aba_problem.cpp:20-22 says that the counter makes each ABA
  unique. It does so only for fewer than 2^64 head changes between load and CAS;
  `AbaExactly` gives the exact condition for any number of tags. The run drawn there
  (lines 10-15) makes three changes; without a tag two are enough, because a pop may
  read the link of the node while it is being pushed again.
* examples/04_pitfalls/04_starvation.cpp:13-15 says that no new reader may enter once
  a writer wants in. A reader that has already left the spin loop still can;
  `BoundedOvertaking` counts exactly these.
* examples/03_patterns/07_work_stealing.cpp:93 takes a counter of zero for an idle
  pool. `ZeroMeansDoneExactly` gives the exact condition for that.
* The picture in examples/01_pthreads/03_condition_variables/02_producer_consumer.c:7-12
  puts head at the oldest item; in the code (lines 51-52) head is the next cell to
  write and tail the next to read.

## Model

| member | source | states |
|---|---|---|
| MpmcQueue.FifoAlways | examples/03_patterns/02_producer_consumer.cpp:32-54 | On every schedule the dequeued items are a prefix of the enqueued ones, the queue holds exactly the rest within its capacity, each producer's items go in in its own order, and no push is ever refused |
| MpmcQueue.SleepersAlways | examples/03_patterns/02_producer_consumer.cpp:32-54 | No lost wakeup: while a consumer sleeps on the open queue every queued item has a woken consumer or an owed notification, the same for producers and free slots; after close a sleeper is about to be woken |
| MpmcQueue.RunsAreFinite | examples/03_patterns/02_producer_consumer.cpp:32-84 | Every run, with any barging and any spurious wakeups, is no longer than an explicit bound in the work, the threads and the spurious wakeups suffered |
| MpmcQueue.RestMeansFinished | examples/03_patterns/02_producer_consumer.cpp:32-84 | In a live configuration no reachable state before the end has every unfinished thread asleep |
| MpmcQueue.DeadlockFreeExactlyWhenLive | examples/03_patterns/02_producer_consumer.cpp:57-87 | No schedule stops short of the end if and only if the configuration is live: with consumers, there is a producer to close the queue and room in it unless there is nothing to push; without consumers, all items fit |
| MpmcQueue.EveryScheduleDelivers | examples/03_patterns/02_producer_consumer.cpp:66-89 | A live program with a consumer, run until nothing can happen, has ended all threads, delivered every producer's items completely and in its order, and both counters equal the number of items |
| MpmcQueue.ClosedMeansAllPast | examples/03_patterns/02_producer_consumer.cpp:73-74 | Only the last producer closes: once the queue is closed, or all have counted themselves, every producer is past its last push |
| MpmcQueue.StepInv | examples/02_cpp11_threads/03_condition_variables/02_producer_consumer.cpp:44-71 | Each step of either variant, with notifications under the lock or owed after it, keeps delivery, capacity, the closing protocol, the counters and the no-lost-wakeup invariant |
| MpmcQueue.LateOwesExactly | examples/02_cpp11_threads/03_condition_variables/02_producer_consumer.cpp:44-60 | For every program with room, an item and a consumer: some run brings a consumer to sleep beside a queued item with nobody woken, the notification owed and no step of its own, if and only if the code notifies after unlocking |
| MpmcQueue.Program.constructor | examples/03_patterns/02_producer_consumer.cpp:57-64 | An empty open queue with all threads at their start |
| MpmcQueue.Program.Push | examples/03_patterns/02_producer_consumer.cpp:32-39 | The critical section of push blocks exactly on a full open queue and otherwise appends the item; notifying late it leaves every consumer as it was and owes the notification, otherwise it wakes the chosen sleeper if anyone sleeps and owes nothing |
| MpmcQueue.Program.Pop | examples/03_patterns/02_producer_consumer.cpp:41-48 | The critical section of pop blocks exactly on an empty open queue, ends the consumer on a closed empty one, and otherwise takes the oldest item; late it owes the notification to the producers, otherwise it wakes the chosen sleeper |
| MpmcQueue.Program.CountDone | examples/03_patterns/02_producer_consumer.cpp:73-73 | The last producer to count itself, and no other, goes on to close |
| MpmcQueue.Program.Close | examples/03_patterns/02_producer_consumer.cpp:51-51 | Sets closed and nothing else: the sleepers still sleep and both notify_all calls are still to come |
| MpmcQueue.Program.NotifyAllEmpty | examples/03_patterns/02_producer_consumer.cpp:52-52 | Leaves no consumer asleep and every other consumer as it was |
| MpmcQueue.Program.NotifyAllFull | examples/03_patterns/02_producer_consumer.cpp:53-53 | Leaves no producer asleep and every other producer as it was |
| MpmcQueue.Program.Other | examples/02_cpp11_threads/03_condition_variables/02_producer_consumer.cpp:49-60 | A notification given after unlocking wakes the chosen sleeper if anyone sleeps and nobody otherwise; the counters go up by one; a spurious wakeup wakes its thread only |
| LockFreeStack.Linearizable | examples/04_pitfalls/06_aba_problem.cpp:46-76 | With popped nodes recycled, on every schedule in which no winning pop is stale by a whole turn of the tag: the list at the head is acyclic and unique, holds what a sequential stack holds after the winning operations in order, every answer is that stack's, and no popped value is returned twice; each thread's operations are what it was asked for, with the values it was given, in its order, all but the one under way |
| LockFreeStack.LeakingStackLinearizable | examples/02_cpp11_threads/04_atomics/05_lockfree_stack.cpp:41-63 | With leaked nodes every schedule whatever refines the sequential stack, also with a plain pointer and spurious CAS failures, and the operations are those the threads were asked for |
| LockFreeStack.PopSnapshotIsCurrent | examples/04_pitfalls/06_aba_problem.cpp:61-68 | Fewer head changes than tags since the load: a CAS that finds the same (pointer, tag) found an unchanged stack, so the link it installs is still right |
| LockFreeStack.SameTagSameCount | examples/04_pitfalls/06_aba_problem.cpp:20-22 | Tags tell apart any two change counts less than a modulus apart |
| LockFreeStack.AbaExactly | examples/04_pitfalls/06_aba_problem.cpp:10-22 | ABA exactly: for every number of tags and every n, some run inside the window up to a last pop that wins n head changes after its load ends with a list no sequential stack would hold, if and only if n is at least two and n changes take the tag round |
| LockFreeStack.AbaBreaksOutsideWindow | examples/04_pitfalls/06_aba_problem.cpp:10-17 | The failing side, with its run for every such n; for odd n it is pop A, pop B and a push at the address of A, then pushes and pops on top |
| LockFreeStack.BrokenWinIsOutsideWindow | examples/04_pitfalls/06_aba_problem.cpp:20-22 | The safe side: a winning pop that breaks the stack has let two or more changes and a whole number of turns of the tag pass |
| LockFreeStack.MachineTagBoundIsTight | examples/04_pitfalls/06_aba_problem.cpp:37-41 | For a 64-bit tag the failing pop comes after exactly 2^64 changes, and no smaller number of changes brings the tag back |
| LockFreeStack.PlainPointerBreaks | examples/02_cpp11_threads/04_atomics/05_lockfree_stack.cpp:49-57 | Without a tag and with recycling a run breaks the stack after n changes for every n from two on, which is why the nodes are leaked |
| LockFreeStack.Conservation | examples/02_cpp11_threads/04_atomics/05_lockfree_stack.cpp:41-63 | As multisets, pushes equal pops plus what is still on the stack |
| LockFreeStack.AllPopsReturned | examples/04_pitfalls/06_aba_problem.cpp:49-75 | When no operation is under way, every push and pop asked for has taken effect exactly once, in each thread's order, and exactly the popped values have been returned, each once |
| LockFreeStack.StepCasPushWin | examples/04_pitfalls/06_aba_problem.cpp:53-58 | The winning push CAS is one push of the sequential stack |
| LockFreeStack.StepCasPopWin | examples/04_pitfalls/06_aba_problem.cpp:65-72 | The winning pop CAS is one pop of the sequential stack |
| LockFreeStack.StepLoadEmpty | examples/02_cpp11_threads/04_atomics/05_lockfree_stack.cpp:50-57 | A load that finds the stack empty answers as the sequential stack does at that moment |
| LockFreeStack.OperationsAreBounded | examples/04_pitfalls/06_aba_problem.cpp:49-75 | Lock freedom on every schedule, also outside the window: apart from spurious failures, n threads take at most 2 n + 4 steps for each operation begun |
| LockFreeStack.OperationsNeverWait | examples/04_pitfalls/06_aba_problem.cpp:49-75 | On every schedule, also outside the window, the next step of every operation under way is possible, and all it touches is on the heap; any CAS may fail for no reason and any unused address may be given out |
| LockFreeStack.PushAlone | examples/04_pitfalls/06_aba_problem.cpp:49-60 | An undisturbed push ends with its value on top |
| LockFreeStack.PopAlone | examples/04_pitfalls/06_aba_problem.cpp:61-75 | An undisturbed pop ends with the top taken off and its value returned |
| LockFreeStack.Stack.constructor | examples/04_pitfalls/06_aba_problem.cpp:47-47 | An empty stack with tag zero |
| LockFreeStack.Stack.Alloc | examples/04_pitfalls/06_aba_problem.cpp:50-50 | Any address not in use becomes a private node with the value pushed |
| LockFreeStack.Stack.LoadForPush | examples/04_pitfalls/06_aba_problem.cpp:51-51 | Takes a snapshot of pointer and tag |
| LockFreeStack.Stack.CasPush | examples/04_pitfalls/06_aba_problem.cpp:53-58 | Wins if and only if pointer and tag are the snapshot's and the CAS does not fail spuriously; a win publishes the node in front of the old head; a failure reloads the snapshot and changes nothing shared |
| LockFreeStack.Stack.LoadForPop | examples/04_pitfalls/06_aba_problem.cpp:62-64 | Answers empty if and only if the sequential stack is empty at that moment, and then, and only then, the call is over |
| LockFreeStack.Stack.ReadNext | examples/04_pitfalls/06_aba_problem.cpp:65-65 | Reads the present link of a node that may have been recycled meanwhile; pointer and tag stay those of the snapshot |
| LockFreeStack.Stack.CasPop | examples/04_pitfalls/06_aba_problem.cpp:66-73 | Wins if and only if pointer and tag are the snapshot's and the CAS does not fail spuriously; without a win it answers empty if and only if the sequential stack is empty, and only then the call is over; within the window a win moves the head to the old head's current successor and the stack stays one |
| LockFreeStack.Stack.Take | examples/04_pitfalls/06_aba_problem.cpp:69-72 | The value returned is the one on top when the caller's own pop took effect |
| Pipeline.MeaningAlways | examples/03_patterns/06_pipeline.cpp:44-62 | At every moment the sink's output followed by everything under way, pushed through its remaining stages, is the source prefix read so far through all stages, in order; nothing is dropped and each queue is within its capacity |
| Pipeline.EveryScheduleDelivers | examples/03_patterns/06_pipeline.cpp:71-93 | Run until nothing can happen, a live pipeline of any number of stages has ended all threads and output the whole mapped source in order |
| Pipeline.RunsAreFinite | examples/03_patterns/06_pipeline.cpp:44-91 | Every run is bounded explicitly in items, queues and spurious wakeups |
| Pipeline.RestMeansFinished | examples/03_patterns/06_pipeline.cpp:44-91 | No reachable state of a live pipeline before the end has every thread asleep |
| Pipeline.DeadlockFreeExactlyWhenLive | examples/03_patterns/06_pipeline.cpp:67-93 | No schedule stops with a thread asleep if and only if there is nothing to carry or every queue has a positive capacity |
| Pipeline.NobodyStuckSending | examples/03_patterns/06_pipeline.cpp:46-46 | Back-pressure is always released from the sink end |
| Pipeline.NobodyStuckPopping | examples/03_patterns/06_pipeline.cpp:53-54 | Items or the forward-propagating close always reach a waiting stage from the source end |
| Pipeline.StepInv | examples/03_patterns/06_pipeline.cpp:44-62 | Each step keeps, at every queue, order, capacity, the close protocol and the no-lost-wakeup invariant |
| Pipeline.Line.constructor | examples/03_patterns/06_pipeline.cpp:67-69 | Empty open queues and idle threads, for any stage functions and capacities |
| Pipeline.Line.Fetch | examples/03_patterns/06_pipeline.cpp:72-73 | The source takes its next item in hand |
| Pipeline.Line.Pop | examples/03_patterns/06_pipeline.cpp:51-58 | Blocks exactly on an empty open queue; at the sink the oldest item is output |
| Pipeline.Line.Send | examples/03_patterns/06_pipeline.cpp:44-50 | Blocks exactly on a full queue and otherwise passes on what is in hand: the closed check never drops it |
| Pipeline.Line.Close | examples/03_patterns/06_pipeline.cpp:60-60 | Closes the output after the last item has gone through |
| Pipeline.Line.Other | examples/03_patterns/06_pipeline.cpp:61-61 | The notify_all of close wakes the consumer if it sleeps, and nobody else; a spurious wakeup wakes its thread only |
| WorkStealing.PendingAccounts | examples/03_patterns/07_work_stealing.cpp:49-107 | In every reachable state pending is the tasks queued plus the tasks taken and not yet decremented less the submits between their push and their increment |
| WorkStealing.ZeroMeansDoneExactly | examples/03_patterns/07_work_stealing.cpp:93-93 | When the counter is zero, nothing is queued or held (and every task has run exactly once) if and only if no submit is between its push and its increment |
| WorkStealing.OrderlyDestructionDrains | examples/03_patterns/07_work_stealing.cpp:91-96 | If all submits have returned before destruction, the destructor returns only with every task run exactly once, every deque empty, the counter zero and every worker gone |
| WorkStealing.DisorderlyDestructionLosesTask | examples/03_patterns/07_work_stealing.cpp:93-106 | If destruction does not wait for the clients, then for any number of workers and any client with something to submit a run loses its task |
| WorkStealing.NoTaskLostExactly | examples/03_patterns/07_work_stealing.cpp:91-107 | For every program, no run that destroys the pool has lost a task if and only if destruction waits for the clients or there is nothing to submit |
| WorkStealing.DestructionCanComplete | examples/03_patterns/07_work_stealing.cpp:91-96 | From every reachable state with destruction begun, orderly or not, some continuation completes it |
| WorkStealing.ProductiveStepsAreExact | examples/03_patterns/07_work_stealing.cpp:66-107 | On every schedule each submit takes exactly six productive steps (draw, push, count, take, run, count down): their number plus what is still to go is six a submit, and all are taken if and only if everything is submitted, run and counted |
| WorkStealing.CanAlwaysDrain | examples/03_patterns/07_work_stealing.cpp:66-83 | From any reachable state before the stop there is a run that executes everything pushed, each task once |
| WorkStealing.SomeoneHelps | examples/03_patterns/07_work_stealing.cpp:66-83 | Before the stop, while anything is queued or held, some worker has a step that brings the end nearer |
| WorkStealing.OwnerTakesNewest | examples/03_patterns/07_work_stealing.cpp:49-56 | The owner takes the newest of all tasks in its deque |
| WorkStealing.ThiefTakesOldest | examples/03_patterns/07_work_stealing.cpp:57-64 | A thief takes the oldest of all tasks in another worker's deque |
| WorkStealing.IdleWorkerSteals | examples/03_patterns/07_work_stealing.cpp:66-83 | From every reachable state before the stop, a worker with an empty deque is brought by its own steps alone to run the oldest task of any other deque that has one; from the look at its own deque, also after the stop, in exactly two steps |
| WorkStealing.DrawsGoRound | examples/03_patterns/07_work_stealing.cpp:100-101 | On every schedule and whoever submits, draw number k gives deque k modulo their number, counted from where the shared counter stood |
| WorkStealing.EveryTurnOnce | examples/03_patterns/07_work_stealing.cpp:100-101 | Among any n draws in a row, n the number of deques, each deque is given exactly once |
| WorkStealing.PushedWhereDrawn | examples/03_patterns/07_work_stealing.cpp:99-107 | Every task was pushed to the deque given by a draw that is its own and no other task's, and while it is queued it is in that deque |
| WorkStealing.PushesAreBalanced | examples/03_patterns/07_work_stealing.cpp:99-107 | Whenever no submit is between its draw and its push, the tasks pushed so far to any two deques differ in number by one at most, whatever the order of the pushes |
| WorkStealing.NothingLeft | examples/03_patterns/07_work_stealing.cpp:93-106 | With every submit returned, a counter that is not positive means empty deques and empty hands |
| WorkStealing.PlacesStep | examples/03_patterns/07_work_stealing.cpp:49-107 | Each step keeps every task in one place: one deque in push order, one worker's hand, or executed once |
| WorkStealing.Pool.constructor | examples/03_patterns/07_work_stealing.cpp:86-90 | Any positive number of workers with empty deques |
| WorkStealing.Pool.TestStop | examples/03_patterns/07_work_stealing.cpp:68-68 | A worker leaves its loop exactly if stop is set |
| WorkStealing.Pool.PopLocal | examples/03_patterns/07_work_stealing.cpp:49-56 | Takes the back of the own deque; finding it empty, the worker begins the stealing loop with no turn used |
| WorkStealing.Pool.Steal | examples/03_patterns/07_work_stealing.cpp:72-77 | One turn of the stealing loop: skips itself, else takes the front of the victim's deque; finding nothing uses up one turn and touches no deque |
| WorkStealing.Pool.RunTask | examples/03_patterns/07_work_stealing.cpp:79-79 | Runs a task that has not run before |
| WorkStealing.Pool.WorkerStep | examples/03_patterns/07_work_stealing.cpp:79-81 | The decrement, the loads of the idle branch and the end of the stealing loop |
| WorkStealing.Pool.Draw | examples/03_patterns/07_work_stealing.cpp:100-101 | Gives the submit the deque of the shared counter modulo their number, and advances the counter |
| WorkStealing.Pool.PushTask | examples/03_patterns/07_work_stealing.cpp:102-105 | Pushes to the back of the deque that this submit has drawn and to no other, not yet counted |
| WorkStealing.Pool.Increment | examples/03_patterns/07_work_stealing.cpp:106-106 | Counts the task after it has become visible |
| WorkStealing.Pool.Destroy | examples/03_patterns/07_work_stealing.cpp:91-96 | Drain, stop and join; if orderly, ends only with every task executed once |
| ThreadPool.AcceptanceOrder | examples/03_patterns/01_thread_pool.cpp:65-87 | Tasks are dequeued in the order of acceptance, each accepted and executed at most once, and a submit throws only after the stop |
| ThreadPool.SleepersAlways | examples/03_patterns/01_thread_pool.cpp:65-71 | While a worker sleeps before the stop, every queued task has a woken worker or an owed notification; after it, the notify_all is still to come |
| ThreadPool.ShutdownCompletes | examples/03_patterns/01_thread_pool.cpp:45-90 | Whenever the destructor begins, a run until nothing can happen has joined all workers, answered every submit, and executed every accepted task exactly once with its own result in its future |
| ThreadPool.RestMeansFinished | examples/03_patterns/01_thread_pool.cpp:45-90 | No reachable state before the end has every thread waiting |
| ThreadPool.RunsAreFinite | examples/03_patterns/01_thread_pool.cpp:45-90 | Every run is bounded explicitly in submits, workers and spurious wakeups |
| ThreadPool.Pool.constructor | examples/03_patterns/01_thread_pool.cpp:39-43 | Asked for no workers, starts two |
| ThreadPool.Pool.Submit | examples/03_patterns/01_thread_pool.cpp:65-73 | Throws exactly if stopped, otherwise appends the task and owes a notification |
| ThreadPool.Pool.Fetch | examples/03_patterns/01_thread_pool.cpp:81-87 | Sleeps exactly if there is no task and no stop, leaves if stopped and empty, otherwise takes the oldest task |
| ThreadPool.Pool.Finish | examples/03_patterns/01_thread_pool.cpp:88-88 | Fulfils the future of the task, for the first time |
| ThreadPool.Pool.Other | examples/03_patterns/01_thread_pool.cpp:46-51 | The owed notification wakes the chosen sleeper if any worker sleeps; the destructor sets stop, wakes every sleeper and no one else, and goes past a worker only once that worker has gone |
| OrderedLocks.StuckExactlyOnCircularWait | examples/01_pthreads/02_mutex/05_deadlock_demo.c:25-32 | In whatever order locks are taken, some schedule of a program gets stuck if and only if its text has a circular wait: a ring of one or more pairs of different threads, with different first locks, in which each second lock is the next one's first (a ring of one names a lock twice) |
| OrderedLocks.OrderedCircularWaits | examples/01_pthreads/02_mutex/05_deadlock_demo.c:31-32 | Locking in address order leaves no circular wait but a pair that names one lock twice |
| OrderedLocks.OrderedNeverStuckExactly | examples/01_pthreads/02_mutex/05_deadlock_demo.c:94-105 | With the lower address first, for any threads, locks and programs, no schedule gets stuck if and only if no pair names the same lock twice |
| OrderedLocks.Chase | examples/01_pthreads/02_mutex/05_deadlock_demo.c:94-98 | Following who waits for whom climbs strictly in lock order and ends at a thread that can go on |
| OrderedLocks.OrderedRunsFinish | examples/01_pthreads/02_mutex/05_deadlock_demo.c:94-123 | A run that can go no further has finished every pair, released every lock and taken exactly four steps a pair |
| OrderedLocks.RunLengthExact | examples/01_pthreads/02_mutex/05_deadlock_demo.c:94-105 | Every lock operation done is one operation less to do, whatever the schedule |
| OrderedLocks.MutualExclusion | examples/04_pitfalls/02_deadlock.cpp:49-53 | Two threads that both hold their pairs have no lock in common |
| OrderedLocks.OrderedRingNeverStuckExactly | 04-patterns/04-dining-philosophers.md:174-184 | The ring of n philosophers taking the lower fork first never gets stuck, for every n and number of meals except one philosopher alone, whose two forks are the same |
| OrderedLocks.UnorderedRingGetsStuck | examples/01_pthreads/02_mutex/05_deadlock_demo.c:52-78 | Taken as written, the ring of every n has a schedule that ends with everyone holding one lock and waiting for the next; n = 2 is bad_a and bad_b |
| OrderedLocks.Locks.constructor | examples/01_pthreads/02_mutex/05_deadlock_demo.c:47-48 | All locks free, every thread before its first pair |
| OrderedLocks.Locks.LockFirst | examples/01_pthreads/02_mutex/05_deadlock_demo.c:96-97 | In order, the lower of the two becomes owned |
| OrderedLocks.Locks.LockSecond | examples/01_pthreads/02_mutex/05_deadlock_demo.c:96-97 | The thread then owns both its distinct locks |
| OrderedLocks.Locks.UnlockOne | examples/01_pthreads/02_mutex/05_deadlock_demo.c:103-104 | Either lock may be released first |
| OrderedLocks.Locks.UnlockOther | examples/01_pthreads/02_mutex/05_deadlock_demo.c:103-104 | After it the thread owns nothing |
| RetryLocks.NeverStuck | examples/04_pitfalls/02_deadlock.cpp:72-85 | In both loops no reachable state before the end is stuck |
| RetryLocks.LivelockExactlyWhenEntangled | examples/04_pitfalls/03_livelock.cpp:31-50 | Any number of threads with a positive limit have a run, with no try failing on a free lock, in which all fail every attempt and report -1, if and only if every thread's second lock is the first of some thread |
| RetryLocks.LivelockExactlyWhenOpposite | examples/04_pitfalls/03_livelock.cpp:31-50 | For two threads: if and only if each one's second lock is the other's first |
| RetryLocks.LivelockForEveryLimit | examples/04_pitfalls/03_livelock.cpp:31-50 | That run, for every attempt limit and every entangled set of pairs |
| RetryLocks.SomebodyCanWinExactly | examples/04_pitfalls/03_livelock.cpp:36-47 | From any reachable state of either loop some continuation lets a thread get both locks if and only if some thread has an attempt left or under way |
| RetryLocks.BlockingRunsAreFinite | examples/04_pitfalls/03_livelock.cpp:36-49 | The bounded loops are over within 3 limit + 1 steps a thread, on every schedule |
| RetryLocks.ResultsTellTheTruth | examples/04_pitfalls/03_livelock.cpp:43-49 | The out-parameter is -1 exactly for a thread that used up every attempt, otherwise the number of the winning attempt |
| RetryLocks.SameOrderSecondIsFree | examples/04_pitfalls/02_deadlock.cpp:74-80 | When all threads use the same order a try of the second lock never finds it taken |
| RetryLocks.Loops.constructor | examples/04_pitfalls/03_livelock.cpp:33-34 | All locks free, every thread before its first attempt |
| RetryLocks.Loops.TakeFirst | examples/04_pitfalls/02_deadlock.cpp:74-75 | Takes the first lock; the blocking loop always gets it, the polling one if it is free and the try does not fail |
| RetryLocks.Loops.TrySecond | examples/04_pitfalls/03_livelock.cpp:39-39 | Succeeds exactly if the lock is free and the try does not fail spuriously |
| RetryLocks.Loops.LetGo | examples/04_pitfalls/03_livelock.cpp:46-46 | After a failed try the thread holds nothing |
| RetryLocks.Loops.ReleaseSecond | examples/04_pitfalls/03_livelock.cpp:41-41 | A winner releases its second lock |
| RetryLocks.Loops.ReleaseFirst | examples/04_pitfalls/03_livelock.cpp:42-44 | A winner holds nothing and has reported its attempt |
| RetryLocks.Loops.GiveUp | examples/04_pitfalls/03_livelock.cpp:49-49 | Reports -1 exactly when every attempt has been used |
| FairRwLock.BoundedOvertaking | examples/04_pitfalls/04_starvation.cpp:40-51 | From a writer's announcement until it gets the mutex, reader acquisitions plus the readers still past the gate equal the readers past the gate at the start, so there are at most that many |
| FairRwLock.OvertakingIsAttained | examples/04_pitfalls/04_starvation.cpp:40-51 | The bound is attained: from every reachable state in which a writer is announced, also with the mutex held, some run that does not let it in has exactly as many reader acquisitions as there are readers past the gate |
| FairRwLock.WriterIsNotStarved | examples/04_pitfalls/04_starvation.cpp:40-55 | While a writer waits only a fixed number of steps other than spinning can pass, and a holder's step or its own acquisition is always possible |
| FairRwLock.PendingAlways | examples/04_pitfalls/04_starvation.cpp:49-53 | The counter is always the number of writers between announce and retract |
| FairRwLock.MutualExclusion | examples/04_pitfalls/04_starvation.cpp:44-54 | A writer holding the mutex, also after its retraction, is alone |
| FairRwLock.NeverStuck | examples/04_pitfalls/04_starvation.cpp:40-83 | Until all threads are over some step changes the state |
| FairRwLock.BoundedExactlyWhenGated | examples/04_pitfalls/04_starvation.cpp:40-51 | For every program with a reader and a writer's round: how often readers overtake an announced writer is bounded over all runs if and only if the gate is there |
| FairRwLock.UngatedWriterStarves | examples/04_pitfalls/04_starvation.cpp:10-21 | Without the gate, for every n two readers can lock the mutex n times while a writer waits and never finds it free |
| FairRwLock.RelayIsReachable | examples/04_pitfalls/04_starvation.cpp:62-83 | The starving situation arises from the program's start |
| FairRwLock.Lock.constructor | examples/04_pitfalls/04_starvation.cpp:37-38 | Nobody holds the mutex and nobody is announced |
| FairRwLock.Lock.Loop | examples/04_pitfalls/04_starvation.cpp:64-65 | A reader goes round again exactly while stop is not set |
| FairRwLock.Lock.Gate | examples/04_pitfalls/04_starvation.cpp:42-43 | One load: the gate is open exactly if no writer is announced or writing |
| FairRwLock.Lock.ReadLock | examples/04_pitfalls/04_starvation.cpp:44-44 | A reader past the gate shares the mutex |
| FairRwLock.Lock.ReadUnlock | examples/04_pitfalls/04_starvation.cpp:46-46 | A reader leaves the mutex |
| FairRwLock.Lock.Announce | examples/04_pitfalls/04_starvation.cpp:49-49 | Shuts the gate |
| FairRwLock.Lock.WriteLock | examples/04_pitfalls/04_starvation.cpp:50-50 | The writer becomes the only holder |
| FairRwLock.Lock.Retract | examples/04_pitfalls/04_starvation.cpp:53-53 | The gate may open while the mutex is still held |
| FairRwLock.Lock.WriteUnlock | examples/04_pitfalls/04_starvation.cpp:54-54 | The mutex is free |
| FairRwLock.Lock.Stop | examples/04_pitfalls/04_starvation.cpp:82-82 | After its rounds a writer stops the readers |
| CasLoops.AdditionsAreLinear | examples/02_cpp11_threads/04_atomics/04_compare_exchange.cpp:39-47 | On every schedule each call returns the initial value plus the deltas applied before its own, the cell is the initial value plus all, and each thread's deltas are applied once each in its order |
| CasLoops.UnitDeltasCountUp | examples/02_cpp11_threads/04_atomics/04_compare_exchange.cpp:62-66 | With deltas of one the calls return consecutive numbers, each once |
| CasLoops.FinalSum | examples/02_cpp11_threads/04_atomics/04_compare_exchange.cpp:62-66 | When all threads are done the cell is the initial value plus everything they were given |
| CasLoops.MaxAlways | examples/02_cpp11_threads/04_atomics/04_compare_exchange.cpp:50-58 | The maximum is at least every candidate whose call is over, also after an early exit on a stale value, and is the initial value or one of them |
| CasLoops.MaxIsMonotone | examples/02_cpp11_threads/04_atomics/04_compare_exchange.cpp:50-58 | The maximum never goes down |
| CasLoops.MaxWritesIncrease | examples/02_cpp11_threads/04_atomics/04_compare_exchange.cpp:53-57 | Every write is strictly larger than all before it |
| CasLoops.FinalMax | examples/02_cpp11_threads/04_atomics/04_compare_exchange.cpp:68-76 | At the end the cell is the maximum of the initial value and all candidates |
| CasLoops.RetriesAreBounded | examples/02_cpp11_threads/04_atomics/04_compare_exchange.cpp:42-57 | Lock freedom: apart from spurious failures all calls end within threads + 2 steps a call, and a run that can go no further has finished them |
| CasLoops.Cell.constructor | examples/02_cpp11_threads/04_atomics/04_compare_exchange.cpp:36-36 | The cell holds its initial value |
| CasLoops.Cell.Load | examples/02_cpp11_threads/04_atomics/04_compare_exchange.cpp:41-52 | Reads the cell, which others may then change |
| CasLoops.Cell.Cas | examples/02_cpp11_threads/04_atomics/04_compare_exchange.cpp:42-56 | A success replaces the value it names, which is the sum of what came before; a failure reloads the expected value |
| CasLoops.Cell.Quit | examples/02_cpp11_threads/04_atomics/04_compare_exchange.cpp:53-53 | Leaving early is right: the cell already is at least the candidate |
| ActiveObject.FuturesAreSerial | examples/03_patterns/05_active_object.cpp:38-83 | Every query is answered with the balance of the sequential account after the operations posted before it, every withdrawal with whether that balance covers it, every deposit plainly; and each caller's operations are posted in its own order |
| ActiveObject.AnswersAreMoney | examples/03_patterns/05_active_object.cpp:63-83 | On every run, with the money counted from the answers alone (amounts deposited less amounts paid before): a query is answered with it, a withdrawal is paid exactly if it covers the amount, a deposit is done |
| ActiveObject.CallersAwaitTheirOwn | examples/03_patterns/05_active_object.cpp:63-83 | In every reachable state a caller that has posted and not yet got its value waits for the future of its own latest call, whose value is the right answer to that call: the balance that all operations posted before it leave, or whether it covers the amount |
| ActiveObject.MoneyIsConserved | examples/03_patterns/05_active_object.cpp:66-76 | The balance is the deposits answered less the withdrawals answered true |
| ActiveObject.NeverOverdrawn | examples/03_patterns/05_active_object.cpp:69-75 | If no deposit is negative the balance never is, whatever is withdrawn |
| ActiveObject.SleeperAlways | examples/03_patterns/05_active_object.cpp:43-53 | While the worker sleeps, every queued operation's notification is still to come |
| ActiveObject.WorkerSleepsBesideJob | examples/03_patterns/05_active_object.cpp:43-53 | post notifies after unlocking: every program that calls has a run in which the worker sleeps beside a queued operation, the notification owed, and can only be woken |
| ActiveObject.ProgramCompletes | examples/03_patterns/05_active_object.cpp:38-60 | If callers finish before destruction, a run until nothing can happen has every call made, answered and applied, and the object destroyed |
| ActiveObject.DestructorDrains | examples/03_patterns/05_active_object.cpp:56-60 | Everything posted before done was set is applied before the join returns |
| ActiveObject.LatePostIsLost | examples/03_patterns/05_active_object.cpp:50-53 | post does not test done: a run in which an operation posted during destruction is lost |
| ActiveObject.NothingLostExactly | examples/03_patterns/05_active_object.cpp:50-60 | For a program that calls at all, no run loses an operation if and only if destruction waits for the callers |
| ActiveObject.RunsAreFinite | examples/03_patterns/05_active_object.cpp:38-60 | Every run is bounded explicitly in operations and spurious wakeups |
| ActiveObject.Account.constructor | examples/03_patterns/05_active_object.cpp:55-55 | An empty account with its worker at the start |
| ActiveObject.Account.Post | examples/03_patterns/05_active_object.cpp:51-51 | Appends the operation to the queue |
| ActiveObject.Account.Await | examples/03_patterns/05_active_object.cpp:90-96 | get answers the caller's own latest call, made on the balance that all the operations posted before it leave: a query gets that balance, a withdrawal whether it is covered |
| ActiveObject.Account.Fetch | examples/03_patterns/05_active_object.cpp:40-46 | Sleeps exactly on an empty queue before done; leaves only when everything posted has been answered |
| ActiveObject.Account.Closure | examples/03_patterns/05_active_object.cpp:66-81 | A deposit adds its amount; a withdrawal is paid exactly if the balance covers it, and otherwise changes nothing; a query is answered with the balance and changes nothing |
| ActiveObject.Account.RunJob | examples/03_patterns/05_active_object.cpp:47-47 | Afterwards the balance is that of the sequential account, and the new answer is the right one for the balance before |
| ActiveObject.Account.Other | examples/03_patterns/05_active_object.cpp:52-59 | A notification wakes the worker if it sleeps; done is set before the destructor notifies; the join returns only when the worker has gone, and then all that was posted before done is answered |
| RingBuffer.RingIsAQueue | examples/01_pthreads/03_condition_variables/02_producer_consumer.c:74-101 | On every schedule head is (tail + count) mod cap, and the values put are the values got followed by the count cells from tail with wraparound |
| RingBuffer.PutAppends | examples/01_pthreads/03_condition_variables/02_producer_consumer.c:80-82 | Writing at head appends to the ring's contents and leaves head behind them |
| RingBuffer.GetTakesOldest | examples/01_pthreads/03_condition_variables/02_producer_consumer.c:94-96 | Reading at tail takes the oldest item off the contents |
| RingBuffer.PutEnqueues | examples/01_pthreads/03_condition_variables/02_producer_consumer.c:74-86 | q_put is the enqueue of a bounded queue, blocking exactly when it is full |
| RingBuffer.GetDequeues | examples/01_pthreads/03_condition_variables/02_producer_consumer.c:88-101 | q_get is its dequeue, blocking exactly when it is empty |
| RingBuffer.SleepersAlways | examples/01_pthreads/03_condition_variables/02_producer_consumer.c:77-98 | One signal an item suffices: while a consumer sleeps there are as many woken consumers as items, and the same for producers and free cells |
| RingBuffer.RestCounts | examples/01_pthreads/03_condition_variables/02_producer_consumer.c:107-130 | Where a program ends does not depend on the schedule: it gets min(puts, gets) items and puts min(puts, gets + capacity) |
| RingBuffer.EveryThreadReturnsExactly | examples/01_pthreads/03_condition_variables/02_producer_consumer.c:107-148 | No schedule leaves a thread waiting if and only if gets <= puts <= gets + capacity; the demo, with 16 puts and 18 gets, is outside and cancels its consumers |
| RingBuffer.RunsAreFinite | examples/01_pthreads/03_condition_variables/02_producer_consumer.c:74-101 | Every run is bounded explicitly in items, threads and spurious wakeups |
| RingBuffer.Queue.constructor | examples/01_pthreads/03_condition_variables/02_producer_consumer.c:59-65 | An empty ring of any positive capacity |
| RingBuffer.Queue.Put | examples/01_pthreads/03_condition_variables/02_producer_consumer.c:74-86 | In place on the array: blocks exactly on a full ring, otherwise the contents get the item at the end |
| RingBuffer.Queue.Get | examples/01_pthreads/03_condition_variables/02_producer_consumer.c:88-101 | In place on the array: blocks exactly on an empty ring, otherwise returns the oldest item |
| RingBuffer.Queue.SpuriousWakeup | examples/01_pthreads/03_condition_variables/02_producer_consumer.c:77-92 | A sleeper may wake unasked; the loop tests again |
| DoubleChecked.OneObjectForAll | examples/03_patterns/08_double_checked_locking.cpp:80-91 | On every schedule at most one object is constructed and every caller that returns has the pointer to it |
| DoubleChecked.ReturnedIsBuilt | examples/03_patterns/08_double_checked_locking.cpp:85-90 | No caller returns an object whose constructor has not finished |
| DoubleChecked.OneObjectExactly | examples/03_patterns/08_double_checked_locking.cpp:83-85 | For two or more callers there is never more than one object if and only if the check is repeated under the lock |
| DoubleChecked.BuiltExactly | examples/03_patterns/08_double_checked_locking.cpp:11-16 | For two or more callers returned objects are always built if and only if publication follows construction |
| DoubleChecked.EveryCallReturns | examples/03_patterns/08_double_checked_locking.cpp:80-91 | Every schedule is over within a fixed number of steps a caller, with every caller returned |
| DoubleChecked.Lazy.constructor | examples/03_patterns/08_double_checked_locking.cpp:78-79 | No object, no owner of the lock |
| DoubleChecked.Lazy.Check | examples/03_patterns/08_double_checked_locking.cpp:81-82 | The first check returns what is published, which is built |
| DoubleChecked.Lazy.Lock | examples/03_patterns/08_double_checked_locking.cpp:83-83 | At most one caller at a time |
| DoubleChecked.Lazy.Recheck | examples/03_patterns/08_double_checked_locking.cpp:84-85 | Under the lock, nothing found means that nothing has been allocated |
| DoubleChecked.Lazy.Allocate | examples/03_patterns/08_double_checked_locking.cpp:86-86 | The object allocated is the first |
| DoubleChecked.Lazy.Construct | examples/03_patterns/08_double_checked_locking.cpp:55-61 | Writes one more field |
| DoubleChecked.Lazy.Publish | examples/03_patterns/08_double_checked_locking.cpp:87-87 | What is published is built |
| DoubleChecked.Lazy.Unlock | examples/03_patterns/08_double_checked_locking.cpp:88-90 | The pointer returned is the published one and its object is built |

## Left out

- Weak memory: atomic operations interleave sequentially; acquire, release and relaxed order and fences are not modelled.
- Library internals: mutexes, shared mutexes, condition variables, futures and std::scoped_lock are taken by their contracts.
- Sleeps, yields, printing, random seeds and random choices: replaced by the scheduler's choice, so `fixed` in examples/04_pitfalls/03_livelock.cpp, which only adds a random sleep, is the same transition system as `buggy`.
- Machine integers: unbounded except for the tag of the tagged stack; counters and sums are assumed not to overflow, and the round-robin counter not to wrap.
- Fairness: loops that spin (idle stealing workers, readers at the gate, polling try_lock) can spin for ever on some schedule; the results there are bounds on the other steps, and that such a step always exists.
- WorkStealing.CanAlwaysDrain: states that a draining run exists; not every schedule is one, because an idle worker may spin for ever. What every schedule does is `ProductiveStepsAreExact`.
- ActiveObject.NeverOverdrawn: one direction; a negative deposit need not overdraw an account that has enough on it.
- FairRwLock.BoundedOvertaking: bounds overtaking by readers only; other writers may overtake as often as they have rounds, since the mutex gives no order among writers.
- The thread pool's arbitrary callables: a job is an integer argument of one pure function.
- Tasks that submit tasks or wait on one another: in both pools a task is a value that ends.
- LockFreeStack.Stack.CasPop: promises a stack afterwards only for a win within one turn of the tag; outside it the step is still the specification's, and `AbaExactly` says when it breaks the stack.
- LockFreeStack.Stack.ReadNext: reading a node that has been recycled gives its present link; freeing to the system and unmapped memory are not modelled, as nodes are type-stable.
- LockFreeStack: the write of a push to its own node's link and the CAS that follows are one step; the module's head comment says why no result depends on it.
- ThreadPool and ActiveObject store results by number where the source has promise objects; broken promises and exceptions thrown by tasks are not modelled.
- The mutex `io` of the dining philosophers, held only around printing while both forks are held.
- pthread_cancel and the sleep before it in the C program's main: `RestCounts` says in which states the threads are then found.
- The thread-per-call basics, thread-local storage, call_once, magic statics, barriers, semaphores, recursive and timed mutexes, TinyPool, the false-sharing benchmarks and the OpenMP demos: wrappers over primitives that would add only easy members.
- The litmus tests of examples/05_memory_model: two fixed threads and finitely many states.
