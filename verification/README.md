# Verified model of the operating-systems algorithms

The repository holds small C programs from an operating-systems course. This
project models its four concurrent algorithms and its sorted linked list, and
proves what they are for. Each concurrent program is a step system: any number
of threads, each at a program position, and one step is one `sem_wait`, one
`sem_post`, one mutex operation, one test or one update of a shared variable by
one thread. A *run* is a finite sequence of states from the initial one, with any
interleaving. The main results hold for every run, with any number of threads,
any initial count `k`, any buffer size (at least one), any number of rounds and
any ring size `n >= 2`; the constants 5, 6, 2 and 10 of the C files are instances.

| file | models |
|---|---|
| `Counting.dfy` | weighted sums over the threads, used by the invariants |
| `Steps.dfy` | a thread's own steps, one after another |
| `CountingSemaphore.dfy` | the counting semaphore made of two binary ones (assignment3/correct.h) |
| `ValSlip.dfy` | the same with the slip `val = 1` of assignment2/correct.h |
| `NaiveSemaphore.dfy` | the decrement-first semaphore (assignment2/incorrect.h), with a counting and with a binary B1 |
| `BoundedBuffer.dfy` | buffer, mutex and loop bodies of producer and consumer |
| `Delivery.dfy` | what becomes of the values drawn, for both bounded buffers |
| `ProdCon.dfy` | the bounded buffer with atomic semaphores (assignment2/prod_con.c) |
| `ProdConSem.dfy` | the bounded buffer on the semaphore of `CountingSemaphore` (assignment2/correctQ1.c) |
| `ReadersWriters.dfy` | the plain readers-writers lock (assignment2/reader-writer2.c) |
| `ReadersWritersLimit.dfy` | the same inside a limit on readers (assignment2/reader-writer-correct.c) |
| `Chopsticks.dfy` | the dining-philosophers monitor (chopsticks/chopsticks0.c, chopsticks/chopsticks.h) |
| `LinkedList.dfy` | the sorted list on heap nodes (linked_list.c) |

How the parts are modelled:

- The functions `SemStep`, `BodyStep`, `ThreadStep`, `LocalStep`, `UpdateStep` and
  the `Step` of each module transcribe the C statements; they have no contracts of
  their own. Critical sections are split into several steps, so that they are
  atomic only because of the lock that the program takes: the load and the store
  of `val -= 1`, `val += 1`, `numreader++`, `numreader--` and `cnt = cnt*2`; the
  index test, the array access and the index update of the buffer; the test, the
  write and the signal of `update_state`.
- The classes `CountSem`, `Buffer`, `Program`, `Lock`, `LimitedLock`, `Monitor`
  and `List` carry the C function bodies on mutable fields, run by one thread
  that nothing interrupts. Where the step system has the same code, the methods
  are tied to it: their `ensures` say that the thread's own steps lead from the
  old fields to the new ones (`Alone`), or lemmas say that the steps add up
  (`SectionInserts`, `SectionDequeues`, `UpdateRunIsUpdated`, `TakeRun`, `PutRun`),
  for the monitor even while other threads run (`TakeIsAtomic`, `PutIsAtomic`).
- History (the log of inserts and removals, the values produced, the number of
  waits requested, passed and posted) is recorded in extra fields that no step
  reads.
- Values that come from `rand` or `scanf` are arbitrary inputs. The results about
  the values of the bounded buffer are over labelled runs: each step carries the
  thread that made it and the value it would draw.

Where code, comments and documentation disagree, the code is followed:

- The composed buffer and the limited readers-writers lock include
  assignment2/correct.h, whose line 33 assigns where it should compare. Both are
  modelled with the text of assignment3/correct.h. `ValSlip` shows that in every
  interleaving the slip is harmless exactly for `0 <= k <= 1`: a start above 1
  blocks waits that are granted, a negative one lets waits pass that are not.
- The comments at assignment2/prod_con.c:57-61 and 82-83 expect a possible
  overflow or underflow. `NoOverflowNoUnderflow` shows there is none.
- The comment at assignment2/incorrect.h:31 wants `B1` binary, and the code makes
  it a counting `sem_t`. From a given start the code is a counting semaphore
  exactly when `k >= 0` and `B1` counts or there are at most two threads; with a
  binary `B1` and `k >= 0` one more waiter stays blocked for each post that finds
  `B1` set, and that is all that goes wrong.
- In assignment2/reader-writer-correct.c a reader returns its credit before it
  decrements `numreader`, so `numCount` limits the readers between `semWait` and
  `semPost` and not `numreader`, which keeps within a positive limit exactly when
  there are no more readers than the limit.

## Model

| member | source | states |
|---|---|---|
| CountingSemaphore.OneThreadMoves | assignment3/correct.h:10-37 | a move is one statement of one thread, or the start of a call, and leaves every other thread where it is: no call is dropped |
| CountingSemaphore.BinarySemaphoresSuffice | assignment3/correct.h:10-50 | in every run, gate tokens (in the gate, in threads past it, owed by pending reopens and first-credit posts) number 1 if val > 0 and 0 otherwise; gate and mutex stay at most 1, and are 0 whenever a thread is about to post them |
| CountingSemaphore.ValIsExclusive | assignment3/correct.h:16-36 | at most one thread is between taking and releasing the mutex |
| CountingSemaphore.DecHasCredit | assignment3/correct.h:15-17 | a thread that is about to decrement finds val > 0 |
| CountingSemaphore.SemStepKeepsLoaded | assignment3/correct.h:16-36 | thanks to the mutex no other thread stores val between a load of val and its store |
| CountingSemaphore.SemStepKeepsInv | assignment3/correct.h:10-37 | each statement of semWait and semPost, by any thread, keeps the one gate token, the one mutex token and the loaded values |
| CountingSemaphore.Credit | assignment3/correct.h:10-50 | val = k + increments - decrements; decrements never exceed the credit granted; val >= 0 when k >= 0 |
| CountingSemaphore.StepIsAtomicOrStutter | assignment3/correct.h:10-37 | each step is, on val, nothing, or one atomic wait that finds val > 0, or one atomic post |
| CountingSemaphore.NoLostWakeup | assignment3/correct.h:15-36 | with val > 0 and the mutex free, the gate is open or exactly one thread is between gate and mutex |
| CountingSemaphore.WhenStuck | assignment3/correct.h:10-37 | if no thread can move, the only threads inside a call wait at the gate with val <= 0 |
| CountingSemaphore.BlockedExactly | assignment3/correct.h:10-50 | when no thread can move, the blocked waiters number the requests not covered by k plus the posts, for every integer k |
| CountingSemaphore.AsSpecified | assignment3/correct.h:10-50 | every run, from every integer k, is one of a counting semaphore: no more waits pass than granted, and when no thread can move just the other requests are blocked |
| CountingSemaphore.CallsFinish | assignment3/correct.h:10-37 | without new calls every run is bounded by the steps left in the open calls |
| CountingSemaphore.CountSem.constructor | assignment3/correct.h:42-50 | semInit leaves val = k, the gate open iff k >= 1, the mutex free |
| CountingSemaphore.CountSem.SemWait | assignment3/correct.h:10-27 | uninterrupted, it is the steps of the step system in order; the gate is left as found iff credit remains |
| CountingSemaphore.CountSem.SemPost | assignment3/correct.h:29-37 | uninterrupted, it is the steps of the step system in order; the gate is posted iff val became 1 |
| ValSlip.SlipLosesCredit | assignment2/correct.h:29-37 | for every integer k, after p >= 1 posts in a row n waits in a row return iff n <= max(0, k + p) with the test, and iff n <= p + 1 (p if k <= 0) with the assignment: the same for all n iff 0 <= k <= 1 |
| ValSlip.SlipMoveKeepsInv | assignment2/correct.h:10-37 | under the slip each statement by any thread keeps gate + threads past it + posts of the gate to come = (1 if k >= 1) + posts - waits, and no wait reopens the gate |
| ValSlip.SlipHarmless | assignment2/correct.h:10-50 | for 0 <= k <= 1, in every interleaving, no more waits pass than granted and a state without moves leaves blocked just the requests not granted |
| ValSlip.SlipHarmlessIff | assignment2/correct.h:29-37 | all reachable states are as specified iff 0 <= k <= 1; one thread suffices for the failing runs |
| NaiveSemaphore.SlowPathAccount | assignment2/incorrect.h:10-38 | for every integer k and either kind of B1, threads committed to the slow path and not released = B1 + pending posts + max(0, -val) - max(0, -k) + posts that found a binary B1 set; waits passed plus those lost posts never exceed max(0, k) + posts |
| NaiveSemaphore.StuckBlocks | assignment2/incorrect.h:10-38 | for every integer k and either kind of B1, the number of waiters blocked when no thread can move |
| NaiveSemaphore.CountingB1BlockedExactly | assignment2/incorrect.h:10-38 | when no thread can move, the blocked waiters are exactly the requests that max(0, k) + posts does not cover, for every integer k |
| NaiveSemaphore.BinaryB1BlockedIff | assignment2/incorrect.h:10-38 | with a binary B1 one more waiter is blocked for each post that found B1 set, so the blocked ones are as specified iff there was no such post |
| NaiveSemaphore.SafeIff | assignment2/incorrect.h:10-38 | from a given start, with either kind of B1, waits passed never exceed the credit granted, max(0, k + posts), in all reachable states, iff k >= 0 or there is no thread |
| NaiveSemaphore.CorrectIff | assignment2/incorrect.h:10-38 | from a given start all reachable states are those of a counting semaphore, in waits passed and waiters blocked, iff k >= 0 and B1 counts or there are at most two threads (or there is no thread) |
| NaiveSemaphore.TwoThreadsLoseNothing | assignment2/incorrect.h:10-29 | with k >= 0 and at most two threads no post finds a binary B1 set |
| NaiveSemaphore.BinaryB1LosesWakeups | assignment2/incorrect.h:10-31 | with a binary B1, from every start with k >= 0 and more than n >= 1 threads, a run with k + n waits and n completed posts ends with n - 1 waiters blocked and no step possible |
| NaiveSemaphore.BinaryAgreesUnlessSet | assignment2/incorrect.h:22-31 | a step with a binary B1 equals the step with a counting B1 iff it is not a post of B1 that finds it set |
| NaiveSemaphore.BinaryRunIsCountingIff | assignment2/incorrect.h:10-38 | a run with a binary B1 is a run with a counting B1 iff no post that it executes finds B1 set |
| NaiveSemaphore.CountSem.SemWait | assignment2/incorrect.h:10-20 | uninterrupted, it is the steps of the step system in order; it blocks iff val falls below 0 and B1 is 0, else takes from B1 exactly on the slow path |
| NaiveSemaphore.CountSem.SemPost | assignment2/incorrect.h:22-29 | uninterrupted, it is the steps of the step system in order; it posts B1 iff val <= 0 after the increment |
| BoundedBuffer.SectionInserts | assignment2/prod_con.c:27-33 | the split steps of the critical section add up to insertbuffer, overflow branch included |
| BoundedBuffer.SectionDequeues | assignment2/prod_con.c:35-43 | the split steps add up to dequeuebuffer: the last item leaves, or the underflow branch returns 0 |
| BoundedBuffer.FaultsAreCounted | assignment2/prod_con.c:27-43 | each failed index test and each access out of range, and nothing else, counts as a fault |
| BoundedBuffer.ReplayBalances | assignment2/prod_con.c:27-43 | in a log where every removal returns the newest item, inserts = removals + what is left |
| BoundedBuffer.Buffer.InsertBuffer | assignment2/prod_con.c:27-33 | appends the value, or reports overflow iff full and changes nothing |
| BoundedBuffer.Buffer.DequeueBuffer | assignment2/prod_con.c:35-43 | removes and returns the last item, or reports underflow iff empty and returns 0 |
| ProdCon.NoOverflowNoUnderflow | assignment2/prod_con.c:45-93 | full_sem + empty_sem + holders = SIZE; buffer_index = empty_sem + inserts not posted + items held; every index test succeeds, so no run overflows or underflows |
| ProdCon.BufferReplays | assignment2/prod_con.c:27-93 | every removal returned the newest item not yet removed, and the buffer is the stack that is left |
| ProdCon.BufferIsAStack | assignment2/prod_con.c:27-93 | every removal returned the newest item not yet removed; each value recorded as produced was removed, is in the buffer, or is in a producer's hands, with multiplicity |
| ProdCon.DrawnIsAccountedFor | assignment2/prod_con.c:45-93 | `produced` is the multiset of the values the producers drew when they entered a round; each was taken by a consumer, is in the buffer, or is in a producer's hands, with multiplicity |
| ProdCon.ProducerKeepsDraw | assignment2/prod_con.c:52-68 | from a draw to its next draw the producer's item is the value drawn, whatever the other threads do, and that is what it inserts |
| ProdCon.ConsumerKeepsItem | assignment2/prod_con.c:85-90 | from the read of the buffer to its next one the consumer's item is the value that was removed, through unlock and post to the end of the round |
| ProdCon.ItemIsTheEvent | assignment2/prod_con.c:62-64 | a thread leaves the critical section with the very value that was inserted or removed |
| ProdCon.StuckMeansDone | assignment2/prod_con.c:45-93 | a state without moves has all threads finished iff the excess of inserts over removals is between 0 and SIZE |
| ProdCon.TotalCorrectness | assignment2/prod_con.c:45-139 | every run is bounded; a run that can go no further has finished iff that excess is between 0 and SIZE, and then semaphores, buffer and values balance |
| ProdCon.AllDelivered | assignment2/prod_con.c:45-139 | in a finished run the values drawn are the values taken and those left in the buffer |
| ProdCon.ProducerRound | assignment2/prod_con.c:50-68 | the steps of one uninterrupted round append the value drawn and turn one slot into one item |
| ProdCon.ConsumerRound | assignment2/prod_con.c:78-90 | the steps of one uninterrupted round end with the last item, which has left the buffer, and turn one item into one slot |
| ProdCon.Program.Produce | assignment2/prod_con.c:45-71 | the producer loop, uninterrupted and with room, appends its values in order |
| ProdCon.Program.Consume | assignment2/prod_con.c:73-93 | the consumer loop, uninterrupted and with items, takes the newest items, newest first |
| ProdConSem.OneThreadMoves | assignment2/correctQ1.c:46-80 | a step leaves every other thread as it is; a statement of a semaphore call touches that semaphore and nothing else |
| ProdConSem.StepRefines | assignment2/correctQ1.c:46-80 | each step of the composed system is a stutter or the same thread's step of the atomic system, with full_sem = fs.val and empty_sem = es.val |
| ProdConSem.RunRefines | assignment2/correctQ1.c:46-80 | for each composed run there is an atomic run that ends in the same abstract state |
| ProdConSem.ComposedIsSafe | assignment2/correctQ1.c:28-80 | no overflow, no underflow, last in first out, and the token balance on fs.val and es.val |
| ProdConSem.ComposedStaysBinary | assignment2/correctQ1.c:53-76 | inside the program the gates and mutexes of fs and es stay at most 1 |
| ProdConSem.StuckRefines | assignment2/correctQ1.c:46-80 | if no composed thread can move, no thread of the atomic system can, and the same threads are finished |
| ProdConSem.TotalCorrectness | assignment2/correctQ1.c:46-109 | every run is bounded; a run that can go no further has finished iff the excess is between 0 and SIZE, with fs and es as semInit leaves them at their final counts |
| ProdConSem.EqualNumbersFinish | assignment2/correctQ1.c:82-109 | with as many producers as consumers every maximal run finishes, the buffer empty, fs and es as at the start, consumed = produced |
| ProdConSem.DrawnIsAccountedFor | assignment2/correctQ1.c:46-80 | the values drawn are accounted for in the composed program: taken, in the buffer, or in a producer's hands, with multiplicity |
| ProdConSem.ProducerKeepsDraw | assignment2/correctQ1.c:52-60 | from a draw to its next draw, through both semaphore calls, the producer's item is the value drawn, and that is what it inserts |
| ProdConSem.ConsumerKeepsItem | assignment2/correctQ1.c:74-77 | from the read of the buffer to its next one, through semPost, the consumer's item is the value that was removed |
| ProdConSem.AllDelivered | assignment2/correctQ1.c:46-109 | in a finished run the values drawn are the values taken and those left in the buffer |
| ProdConSem.Program.ProduceOne | assignment2/correctQ1.c:53-59 | one producer round appends its value and moves one credit |
| ProdConSem.Program.Produce | assignment2/correctQ1.c:46-63 | the producer loop over semWait and semPost, uninterrupted, appends its values and moves that many credits |
| ProdConSem.Program.ConsumeOne | assignment2/correctQ1.c:70-76 | one consumer round takes the newest item |
| ProdConSem.Program.Consume | assignment2/correctQ1.c:65-80 | the consumer loop takes the newest items, newest first |
| ReadersWriters.Exclusion | assignment2/reader-writer2.c:15-42 | wrt + writers inside + (1 if the reader group holds it) = 1; at most one writer inside, and none while any reader reads |
| ReadersWriters.ReaderWaitsForWriterOnly | assignment2/reader-writer2.c:26-31 | in every run a reader that waits for wrt is the only one counted, nobody reads, and wrt is free or one writer has it |
| ReadersWriters.ReaderPreference | assignment2/reader-writer2.c:5-42 | while somebody reads every unfinished writer is blocked before its section, and every unfinished reader can step, or waits for the mutex, whose holder can step |
| ReadersWriters.NoLostUpdate | assignment2/reader-writer2.c:15-22 | cnt = 2^(writers past their store) in every run |
| ReadersWriters.NobodyInside | assignment2/reader-writer2.c:23-42 | if only readers that have not begun can move, nobody is inside and both locks are free: blocking on wrt with mutex held never deadlocks |
| ReadersWriters.TotalCorrectness | assignment2/reader-writer2.c:15-65 | every run is bounded and, when it can go no further, all threads are done, numreader = 0, wrt = mutex = 1, cnt = 2^writers |
| ReadersWriters.ReaderAlone | assignment2/reader-writer2.c:23-42 | the steps of one uninterrupted reader end with the value of cnt seen and the lock as it was |
| ReadersWriters.Lock.ReaderEnter | assignment2/reader-writer2.c:26-31 | uninterrupted, it is the reader's steps in order; wrt is taken iff this is the first reader |
| ReadersWriters.Lock.ReaderExit | assignment2/reader-writer2.c:36-41 | uninterrupted, it is the reader's steps in order; wrt is posted iff this is the last reader |
| ReadersWriters.Lock.Write | assignment2/reader-writer2.c:15-22 | uninterrupted, it is the writer's steps in order and doubles cnt |
| ReadersWritersLimit.StepRefines | assignment2/reader-writer-correct.c:20-58 | with the limit forgotten, each step is a stutter or the same thread's step of the plain lock |
| ReadersWritersLimit.RunRefines | assignment2/reader-writer-correct.c:20-58 | for each run there is a run of the plain lock that ends in the same state |
| ReadersWritersLimit.LimitHolds | assignment2/reader-writer-correct.c:30-45 | at most numCount readers are between semWait and semPost; the two reads of cnt by one reader agree |
| ReadersWritersLimit.ExclusionAndUpdates | assignment2/reader-writer-correct.c:20-58 | one writer at most, none while a reader reads, and no lost update, with the limit in place |
| ReadersWritersLimit.TotalCorrectness | assignment2/reader-writer-correct.c:20-85 | every run is bounded; when it can go no further numreader = 0, wrt = mutex = 1, cnt = 2^writers and all credits are back, and all threads are done iff numCount > 0 or there are no readers |
| ReadersWritersLimit.NumreaderBoundedIff | assignment2/reader-writer-correct.c:28-58 | from any start, numreader stays at most max(0, limit) in all reachable states iff the limit is not positive or there are at most that many readers |
| ReadersWritersLimit.NumreaderReachesAll | assignment2/reader-writer-correct.c:45-52 | under every positive limit all readers of the program can be counted in numreader at once |
| ReadersWritersLimit.NumreaderIsUnbounded | assignment2/reader-writer-correct.c:45-52 | for every positive limit and every n some program reaches numreader = n |
| ReadersWritersLimit.ReaderAlone | assignment2/reader-writer-correct.c:28-58 | the steps of one uninterrupted reader, through semWait, lock and semPost, end with cnt read twice and lock and limit as they were |
| ReadersWritersLimit.LimitedLock.Read | assignment2/reader-writer-correct.c:28-58 | uninterrupted, it is the reader's steps in order: it sees cnt twice the same and leaves lock and limit as found |
| Chopsticks.RingMacros | chopsticks/chopsticks0.c:18-19 | LEFT and RIGHT are the modular expressions of the macros |
| Chopsticks.MoveKeepsInv | chopsticks/chopsticks0.c:33-73 | every statement by any thread, and every spurious wakeup, keeps the monitor's invariant |
| Chopsticks.MonitorInvariant | chopsticks/chopsticks0.c:33-73 | in every run no two neighbours eat, and with M free every hungry philosopher has an eating neighbour |
| Chopsticks.TakeAndWait | chopsticks/chopsticks0.c:56-64 | take returns only to an eating philosopher; a parked thread is hungry or its signal is about to be sent |
| Chopsticks.ParkedIsNotAbandoned | chopsticks/chopsticks0.c:56-73 | while a thread is parked, another one can step inside the monitor or, eating, can call put, without any spurious wakeup |
| Chopsticks.CallsEnd | chopsticks/chopsticks0.c:56-73 | without new calls and spurious wakeups every run is bounded |
| Chopsticks.CallsReturn | chopsticks/chopsticks0.c:56-73 | where it ends M is free and every call has returned, except takes of hungry philosophers beside one that has returned from take and eats |
| Chopsticks.WokenBySignal | chopsticks/chopsticks0.c:39-62 | a parked thread is moved only by a spurious wakeup or by a signal to its own condition variable |
| Chopsticks.SignalTouchesOnly | chopsticks/chopsticks0.c:39 | a signal to philosopher j wakes j's thread iff it is parked and leaves every other thread, but the caller's, as it was |
| Chopsticks.MoveTouchesOnly | chopsticks/chopsticks0.c:33-73 | a move changes no other thread but the one it signals, and no other philosopher but the one it hands the chopsticks to |
| Chopsticks.OnlyEatersAreSignalled | chopsticks/chopsticks0.c:35-39 | in every run a thread leaves its wait spuriously or because its philosopher has been made to eat |
| Chopsticks.ExclusiveIffOneOwner | chopsticks/chopsticks.h:15-28 | neighbours exclude each other iff no chopstick has two owners |
| Chopsticks.OwnerIsTheOwner | chopsticks/chopsticks.h:15-20 | the table of owners names, for each chopstick, the one philosopher that owns it, or nobody iff it is free |
| Chopsticks.TestMeansBothFree | chopsticks/chopsticks0.c:35-37 | the test of update_state holds iff the philosopher is hungry and both its chopsticks are free |
| Chopsticks.MoveRefinesSticks | chopsticks/chopsticks0.c:33-73 | on the table of owners each move does nothing, or one philosopher takes two free sticks at once, or the caller of put releases both of its own at once, before any hand-over |
| Chopsticks.EatingBound | chopsticks/chopsticks0.c:33-73 | 2 #EATING <= n always, and #HUNGRY <= 2 #EATING with M free |
| Chopsticks.UpdateRunIsUpdated | chopsticks/chopsticks0.c:33-42 | test, write and signal, as separate steps, add up to update_state: the target eats iff the test held, its thread wakes iff it was parked too, and no other philosopher and no other thread changes |
| Chopsticks.TakeRun | chopsticks/chopsticks0.c:59-61 | the steps of take up to its loop add up to setting HUNGRY and then update_state |
| Chopsticks.PutRun | chopsticks/chopsticks0.c:69-71 | the steps of put add up to setting THINKING, then update_state on the left, then on the right |
| Chopsticks.TakeAlone | chopsticks/chopsticks0.c:56-64 | the steps of a whole uninterrupted take end eating and returned, or hungry and parked, the latter iff a neighbour eats, M free again and nothing else changed |
| Chopsticks.WakeAlone | chopsticks/chopsticks0.c:61-64 | after a wakeup take goes on to return iff the philosopher is not hungry, else it waits again |
| Chopsticks.PutAlone | chopsticks/chopsticks0.c:66-73 | the steps of a whole uninterrupted put end outside with the states of AfterPut; of the other threads exactly the parked ones whose philosophers it makes eat wake up |
| Chopsticks.TakeIsAtomic | chopsticks/chopsticks0.c:58-61 | in every run, from the lock of take to the first test of its loop the states go from x to AfterTake(x, i), whatever other threads and spurious wakeups do |
| Chopsticks.PutIsAtomic | chopsticks/chopsticks0.c:68-72 | in every run, from the lock of put to its unlock the states go from x to AfterPut(x, i), and then no philosopher that eats is parked |
| Chopsticks.TakeKeepsGood | chopsticks/chopsticks0.c:56-60 | take keeps the invariant, leaves the others alone, and eats at once iff no neighbour eats |
| Chopsticks.HandOver | chopsticks/chopsticks0.c:66-73 | put makes the left neighbour eat iff it is hungry and its other neighbour does not eat, then the right one likewise, seeing the first hand-over; nobody else changes |
| Chopsticks.HandedToExactly | chopsticks/chopsticks0.c:66-73 | the philosophers that put signals are exactly those it makes eat |
| Chopsticks.HandedToInOrder | chopsticks/chopsticks0.c:70-71 | the left one comes first, and each once, also where both neighbours are the same |
| Chopsticks.PutKeepsGood | chopsticks/chopsticks0.c:66-73 | put keeps the invariant, both hand-overs included |
| Chopsticks.Monitor.constructor | chopsticks/chopsticks0.c:46-54 | all philosophers think, and the invariant holds |
| Chopsticks.Monitor.UpdateState | chopsticks/chopsticks0.c:33-42 | sets EATING and signals iff the test holds |
| Chopsticks.Monitor.Take | chopsticks/chopsticks0.c:56-61 | keeps the invariant, waits iff a neighbour eats, and otherwise signals its own philosopher and nobody else |
| Chopsticks.Monitor.Put | chopsticks/chopsticks0.c:66-73 | keeps the invariant and signals the left neighbour iff it eats now and did not before, then the right one likewise, each once |
| LinkedList.CountLessCounts | linked_list.c:72-77 | the count of insert is the number of positions with a smaller element |
| LinkedList.InsertKeepsSorted | linked_list.c:63-87 | insert keeps a sorted list sorted and adds one occurrence |
| LinkedList.DeleteKeepsSorted | linked_list.c:91-119 | delete keeps a sorted list sorted and removes one occurrence if there is one |
| LinkedList.DeleteUndoesInsert | linked_list.c:63-119 | delete(x) right after insert(x) restores exactly the earlier list, duplicates included |
| LinkedList.AlwaysSorted | linked_list.c:63-119 | every sequence of inserts and deletes from the empty list gives a sorted list with the expected bag |
| LinkedList.List.Add | linked_list.c:27-42 | prepends to the linked nodes, which stay acyclic |
| LinkedList.List.Append | linked_list.c:12-23 | appends to a list that is not empty |
| LinkedList.List.AddAfter | linked_list.c:43-59 | for 2 <= loc <= count + 1, inserts before the loc-th node, or behind the last one |
| LinkedList.List.Count | linked_list.c:138-149 | returns the number of elements |
| LinkedList.List.Insert | linked_list.c:63-87 | inserts at the position that is the number of smaller elements, whatever the list holds, and calls addafter only with 2 <= loc <= count |
| LinkedList.List.Delete | linked_list.c:91-119 | unlinks the first node with the value, and no other, and returns 1, or changes nothing and returns 0 |
| LinkedList.Session | linked_list.c:152-206 | the command loop leaves the list that the inserts and deletes describe, sorted |

## Left out

- Classes: their methods are run by one thread without interruption; interleaving is in the step systems, which work on values, so aliasing between threads' local variables is not modelled.
- Machine-integer overflow of `val`, `cnt` and `numreader`: integers are unbounded.
- `printf`, `sleep`, `sem_getvalue`, thread creation and join, and destruction of semaphores and mutexes: tracing and plumbing.
- `chopsticks_finalize` and `chopsticks_emergency_stop`: declared in the header and defined nowhere.
- `free`: a deleted node leaves the list for good, and its memory is not tracked further.
- `display` in linked_list.c: it only prints.
- Starvation freedom and fairness: none of the algorithms promises it.
- assignment2/prod_con1.c, assignment2/incorrectQ1.c, assignment2/reader-writer1.c, assignment2/reader-writer-incorrect.c, assignment3/prod_con.c, assignment3/prodcon.c: near copies of the files modelled.
- assignment3/correctQ1.c, assignment3/assignment.c, assignment3/task1.c: unfinished programs.
- assignment1, testCode, client.c, proc1.c, fork-example.c: demonstrations of fork, RPC, shared memory, message queues and signals, built on foreign calls.
