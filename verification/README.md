# HTLL: a verified model

HTLL is a futex-based mutex with a latency-aware reorder window, a condition variable on top of it,
and an interposition layer that puts such a lock behind every pthread mutex. This project models the
parts of it that are hard to get right and proves what they are for:

- **The futex mutex and condition variable** (`LockWord`, `HtllModel`, `HtllSafety`, `HtllRuns`,
  `HtllCalls`, `HtllAccesses`, `HtllScenes`, `HtllCover`, `HtllStranding`, `HtllStrandedRun`, `HtllSpinBudget`,
  `HtllBinding`, `HtllSignals`, `HtllSignalCalls`, `HtllBroadcastCalls`, `HtllWaitCalls`, `HtllCompletion`,
  `HtllMachine`). One step system
  with any number of mutexes, condition variables and threads, one atomic step for each access to shared
  memory, under sequential consistency. `HtllModel.Next` is the step function; everything that the
  program text leaves open (which call an idle thread makes, how long a spin phase polls, whom the kernel
  wakes, timeouts, spurious wakeups, racy reads of `cnt_wake`) is a choice of the scheduler.
  `HtllMachine.Machine` executes the same steps in place and is proved to pass through runs of the
  system. `HtllSafety` holds the invariant, `HtllRuns` and the modules after it what it means for runs;
  the modules named after calls say it of whole calls, from the step that makes the call to the one that
  returns; `HtllScenes` is how runs are written out step by step.
- **The segment controller** (`Segments`, `SegmentWindow`, `SegmentNesting`, `SegmentTimes`, `SegmentRuns`).
  The class `Controller` is the per-thread table with its stack; the other modules prove what it measures,
  by the times of the events alone, how the window evolves over whole runs and that nesting restores the
  context.
- **The interposition table** (`LockTable`, `LockTableConcurrent`, `LockTableProgress`, `LockTableLinear`,
  `LockTableDuplicates`). The class `PthreadLockTable` is the table used by one thread at a time;
  `LockTableConcurrent` is the same table under any interleaving of puts and gets, one step for each
  access to a slot. `LockTableProgress` proves that calls end and with what,
  `LockTableLinear` that the table is linearizable when each mutex is put once, and
  `LockTableDuplicates` what happens when one is put twice.
- **Two smaller protocols** (`ParkHandshake`, `TwoLockWait` and `TwoLockCalls`): the reusable spin-then-park handshake, and
  the two-lock condition wait of the pthread wrapper under `COND_VAR`.

The condition variable is meant to implement `pthread_cond_wait` and `pthread_cond_signal` of
POSIX.1-2017 (IEEE Std 1003.1-2017), System Interfaces, section 2.9.

## Where the code does not do what is said of it

- *A sleeper can be stranded.* A thread that locks from inside a segment takes a wakeup without marking
  the word again. Exactly one kind of step leaves a sleeper without cover: a wake that is all that covers
  two sleepers and takes one that sleeps inside a segment (`HtllCover.StepBreaksKIff`), and every run
  that strands a sleeper has made such a step (`HtllStranding.StrandedAfterNapperWake`). A client can
  strand a sleeper if and only if it locks the mutex from inside segments and has three threads or more
  (`HtllStrandedRun.StrandingIff`).
- *Two puts of one mutex both succeed.* The comment at litl/src/interpose.c:157-161 says that only one
  does and that the other thread looks the winner up. The table detects nothing, whether the two puts
  overlap or follow one another: whatever calls are made, two puts of one mutex can both return 0 if and
  only if two of the calls put the same mutex (`LockTableDuplicates.BothSucceedIff`).
- *`BUCKET_SIZE` is 40960, no power of two, yet `my_hash` masks with `BUCKET_SIZE - 1`.* Only buckets
  with bits 13 and 14 clear are ever used: `LockTable.HashReachesExactly`.
- *The window's recovery* after a violation, to at most the window that violated and to within 99 of it,
  is guaranteed exactly from a window of 197999 on: `SegmentWindow.RecoversIffLarge`.
- *The spin budget is unsigned.* Its envelope holds in every run with N slow unlocks if and only if
  N < 33 * 2048 (`HtllSpinBudget.EnvelopeHoldsIff`): two threads that hand a contended mutex to each other
  never get as far as a wakeup, and their 33rd adjustment takes the budget from 0 to 2^32 - 256
  (`HtllSpinBudget.SpinBudgetWraps`).
- *A condition variable is bound to its first mutex for ever* (`HtllRuns.BindingIsForever`). POSIX binds
  it only while there are waiters; here a wait fails with EINVAL if and only if the variable is bound to
  another mutex (`HtllBinding.WaitFailsIffBoundElsewhere`), although nobody waits any more
  (`HtllBinding.BindingOutlivesWaiters` is a run).
- *A broadcast can miss a waiter.* "No mutex means that there are no waiters" (litl/src/htll.c:189) is true of
  threads asleep, not of one that has read the number and is about to bind the variable and release its
  mutex: a broadcast that a thread makes without that mutex returns at once, and the waiter sleeps on. In
  all runs a broadcast reaches everyone who waits at its call if and only if it reads a mutex
  (`HtllBroadcastCalls.BroadcastReachesAllIff`).
- *The header comment of litl/src/waiting_policy.h (line 38)* says that a sleep waits for 0. The code
  waits for 1, and so does the model.

## Model

| member | source | states |
|---|---|---|
| HtllCompletion.TotalCompletion | litl/src/htll.c:62-137 | Threads that each lock and unlock any number of times outside segments, with no spurious wakeups: a schedule that cannot be continued has every thread done and back with 0, nobody asleep, the word 0, and each thread has held the mutex exactly once per round |
| HtllCompletion.SchedulesAreFinite | litl/src/htll.c:62-137 | Every schedule of n such threads making R rounds in all has at most R * (6n + 23 + fuel) steps, whatever the interleaving |
| HtllCompletion.StepDescends | litl/src/htll.c:62-137 | Every step lowers the measure (remaining writes and wakes, weighted, plus distances to sleep or release) and keeps the invariant |
| HtllCompletion.StuckMeansDone | litl/src/htll.c:62-137 | Deadlock freedom: the only states without a step are those in which all the work is done |
| HtllStranding.NoStrandedSleeper | litl/src/htll.c:76-91 | In every run, whoever locks from inside segments: if the lock byte is free and someone sleeps on m, an unlocker is between release and the end of its wake, or a thread is about to run the sleep-loop exchange, unless an earlier wake that was all that covered two sleepers took one inside a segment |
| HtllStranding.StrandedAfterNapperWake | litl/src/htll.c:62-137 | Any run that reaches a state with m free, someone asleep on it and everyone else outside any call has made such a wake before |
| HtllCover.StepBreaksKIff | litl/src/htll.c:81-135 | A step of the system breaks K exactly if it is a wake that is the only cover of two sleepers and takes one that sleeps inside a segment |
| HtllStranding.RunKeepsKIff | litl/src/htll.c:62-137 | K holds throughout a run if and only if the run has no such step |
| HtllCover.StepKeepsJ | litl/src/htll.c:110-135 | Free and marked contended implies that some unlocker is between the release and the clear; every step keeps this |
| HtllCover.StepKeepsK | litl/src/htll.c:86-135 | A sleeper implies a mark, a pending wake or a thread about to re-mark; every other step keeps this |
| HtllStranding.UntimedRunsStrandNobody | litl/src/htll.c:62-137 | Nobody is stranded in a run in which no call locks m from inside a segment |
| HtllStranding.TwoThreadsStrandNobody | litl/src/htll.c:62-137 | Nobody is stranded in a system of two threads, from inside segments or not |
| HtllCover.BroadcastStrandsNobody | litl/src/htll.c:186-227 | A requeue empties the queue of the condition variable, leaves one waiter about to re-mark the mutex and every other one asleep on exactly that mutex |
| HtllStrandedRun.SegmentLockStrands | litl/src/htll.c:67-87 | In any system with three threads, a run in which a wakeup goes to a thread sleeping inside a segment and another thread stays asleep on the free mutex |
| HtllStrandedRun.StrandingIff | litl/src/htll.c:62-137 | For any sizes of the system: a client can strand a sleeper if and only if it may lock the mutex from inside segments and there are at least three threads |
| HtllRuns.MutualExclusion | litl/src/htll.c:62-144 | By history alone: between any two entries into m, through lock, trylock or a returning wait, inside segments or not, the first to enter has released the lock byte |
| HtllRuns.LockedMeansHeld | litl/include/htll.h:99-106 | The lock byte is 1 exactly while some thread has entered and not left, and the word is only ever 0, 1, 256 or 257 |
| HtllSafety.StepEvolves | litl/src/htll.c:62-292 | Every step is a step of an atomic lock at each mutex (nothing, a free mutex is taken by the mover, its owner gives it up), and leaves other threads alone unless the kernel lets them go or requeues them |
| HtllSafety.StepKeepsInv | litl/src/htll.c:62-292 | The whole invariant (words, owners, counters, bindings, queues, stages) is kept by every step of every thread |
| HtllRuns.TrylockRefusesIffHeld | litl/src/htll.c:139-144 | trylock returns EBUSY and changes nothing exactly when the mutex is held, and otherwise takes it |
| HtllCalls.CallReturns | litl/src/htll.c:62-292 | Over a whole call in any run, whatever the others do: a lock returns 0 and has the mutex, a trylock has it or returns EBUSY, an unlock returns 0 and has it no more, a wait has it again and returns ETIMEDOUT only if it is timed, signal and broadcast return 0; a call that gives up its mutex holds it exactly up to its release |
| HtllCalls.TrylockReturnsBusyIffHeld | litl/src/htll.c:139-144 | Over a whole call, trylock returns EBUSY if and only if the mutex is held when its exchange looks |
| HtllCalls.StepGetsNearer | litl/src/htll.c:62-292 | Every step of any call brings its thread nearer to its return unless it finds the mutex that it wants held |
| HtllCalls.CallIsOver | litl/src/htll.c:62-292 | A call is over within 1 (lock, trylock), 11 (unlock), 19 (waits), 2 (signal) or 3 (broadcast) more steps of its thread that do not find its mutex held |
| HtllAccesses.UncontendedLock | litl/src/htll.c:67-69 | Alone, a lock takes a free word with its first exchange and leaves it at 1 |
| HtllAccesses.UncontendedUnlock | litl/src/htll.c:108-112 | Alone, an unlock of a word at 1 takes it to 0 in two accesses and counts nothing |
| HtllAccesses.PollsBeforeMark | litl/src/htll.c:66-76 | A lock polls exactly as often as its spin phase is allotted, and at least twice, before it marks the word |
| HtllAccesses.PollsAgainBeforeMark | litl/src/htll.c:66-87 | So does the phase that a thread inside a segment begins after its sleep |
| HtllAccesses.MarkLeaves257 | litl/src/htll.c:76-90 | A marking exchange leaves the word at 257 in any case, and gets the mutex exactly if it is free |
| HtllAccesses.SleepsIffWordUnchanged | litl/src/htll.c:76-91 | A thread that marks the word and finds it held calls the futex next, and sleeps if and only if the word is still as it left it |
| HtllAccesses.LooksTwiceBeforeClear | litl/src/htll.c:120-133 | An unlocker about to clear the mark has looked twice for a taker and found the byte free both times |
| HtllAccesses.TakerEndsUnlock | litl/src/htll.c:122-130 | A look that finds a taker ends the unlock and changes nothing |
| HtllAccesses.WakeLetsOneGo | litl/src/htll.c:134-135 | A wake lets exactly one thread go if someone sleeps on the mutex, and nobody else moves |
| HtllAccesses.SignalLetsOneGo | litl/src/htll.c:181-182 | The wake of a signal lets one waiter go and takes it, and nobody else, from the queue |
| HtllRuns.CounterIsExact | litl/src/htll.c:108-120 | With the increment split into load and store, cnt_unlock is the number of slow unlocks modulo 2^32, and adjust_spin_ticks has run once per 2048 of them, the last one possibly still due |
| HtllSpinBudget.BudgetIsExact | litl/src/htll.c:98-117 | In any run ticks_spin is 8192 plus 512 for each adjustment so far that read more than 32 wakeups, minus 256 for each that read fewer than 16, modulo 2^32 |
| HtllRuns.SpinBudgetEnvelope | litl/src/htll.c:98-117 | For the first 33 * 2048 - 1 slow unlocks, ticks_spin is a multiple of 256 between 8192 - 256a and 8192 + 512a for a = N / 2048, whatever cnt_wake reads |
| HtllSpinBudget.EnvelopeHoldsIff | litl/src/htll.c:98-117 | Every run with N slow unlocks stays in that envelope at every point if and only if N < 33 * 2048 |
| HtllSpinBudget.SpinBudgetWraps | litl/src/htll.c:99-127 | For each N from 33 * 2048 on, a run of the system with N slow unlocks and no wakeup at all in which the budget is 2^32 - 256 |
| HtllRuns.BindingIsForever | litl/src/htll.c:203-215 | Once c->m is set it keeps its value for the rest of the run |
| HtllRuns.SleepersMatchBinding | litl/src/htll.c:186-229 | Sleepers on c->seq wait with the mutex c is bound to, an unbound c has no waiters, and whoever sleeps on a mutex futex will re-acquire that very mutex |
| HtllRuns.WaitReturnsHolding | litl/src/htll.c:203-292 | A wait with m moves on within the wait or returns holding m; it returns EINVAL only while it still holds m and finds c bound to another mutex, and goes on to unlock only when c is bound to m |
| HtllRuns.WaitCallComesBackHolding | litl/src/htll.c:203-292 | Over a whole call in any run, a wait or timed wait comes back holding the mutex it was given |
| HtllBinding.WaitFailsIffBoundElsewhere | litl/src/htll.c:205-215 | Over a whole call in any run, a wait or timed wait comes back with EINVAL if and only if the condition variable is bound to a mutex other than its own, and it is bound in either case |
| HtllBinding.BoundWaitFailsIff | litl/src/htll.c:207-209 | A wait that begins when the condition variable is bound fails if and only if that is to another mutex |
| HtllBinding.BindingOutlivesWaiters | litl/src/htll.c:205-292 | A run in which a wait that begins when every thread is outside any call and nobody is queued comes back with EINVAL |
| HtllSignals.SignalsAreNotLost | litl/src/htll.c:177-185 | With a first-in-first-out futex queue and no wraparound, after any increment, by a signal or a broadcast, k completed signals release at least min(k, n) of the n threads that waited then, asleep or on their way to sleep |
| HtllSignals.SleepsIffUnchanged | litl/src/htll.c:205-268 | FUTEX_WAIT on c->seq, of a wait or a timed wait whose time is not over, sleeps exactly when the increments since the number read are a multiple of 2^32 |
| HtllSignalCalls.NumberIsCount | litl/src/htll.c:177-198 | In any run c->seq counts the increments of signals and broadcasts, each once |
| HtllSignalCalls.SignalCall | litl/src/htll.c:177-185 | From its call to its return a signal increments the number once and then makes one wake |
| HtllSignalCalls.SignalCallsAreNotLost | litl/src/htll.c:177-185 | The same by whole calls: k calls of signal that are made and return release at least min(k, n) of the n threads waiting at the first increment since |
| HtllWaitCalls.WaitSleepsIffUnsignalled | litl/src/htll.c:205-268 | Over a whole call, a wait that has released its mutex sleeps if and only if the increments since this call read the number are a multiple of 2^32 and it is not a timed wait whose time is over |
| HtllWaitCalls.WaitCallsFutex | litl/src/htll.c:205-292 | A wait that comes back, but for EINVAL, has called FUTEX_WAIT on c->seq with its mutex released, or has found then that its time was over |
| HtllWaitCalls.TimesOutIffLate | litl/src/htll.c:232-292 | A timed wait that does not return EINVAL returns ETIMEDOUT if and only if the clock has said that its time is over, before its call of the futex or after it; it returns when it finds its mutex free |
| HtllSignals.ChangedNumberRefuses | litl/src/htll.c:205-219 | After an increment no thread with an older number falls asleep |
| HtllSignals.RunKeepsSorted | litl/src/htll.c:203-219 | As long as there have been fewer than 2^32 increments, the queue of c->seq is sorted by the numbers that its threads have read |
| HtllBroadcastCalls.BroadcastReleasesWaiters | litl/src/htll.c:186-201 | From the call of a broadcast to its return: if it reads a mutex, nobody who had read the number before the call, asleep or on the way, is asleep on c->seq when it returns, or falls asleep there later with fewer than 2^32 increments |
| HtllBroadcastCalls.BroadcastCall | litl/src/htll.c:186-201 | From its call to its return a broadcast reads the binding and, if that is a mutex, increments the number once and requeues |
| HtllBroadcastCalls.BroadcastMissesBinder | litl/src/htll.c:186-219 | A run in which a broadcast finds c->m NULL while a waiter is about to bind it, and the waiter sleeps with its old number afterwards |
| HtllBroadcastCalls.BroadcastReachesAllIff | litl/src/htll.c:186-201 | In all runs with what it reads of c->m, a broadcast leaves no earlier waiter asleep on c->seq, then or later, if and only if that is a mutex |
| HtllSignals.BroadcastReleasesAll | litl/src/htll.c:186-201 | After a broadcast's requeue none of the earlier waiters sleeps on c->seq |
| HtllMachine.Machine.Step | litl/src/htll.c:62-292 | One access in place leaves the arrays exactly as the step function says |
| HtllMachine.Machine.Run | litl/src/htll.c:62-292 | Whatever a scheduler proposes, the machine does all of it that is possible, passes through the states of a run and satisfies the invariant |
| HtllMachine.Machine.RequeueAll | litl/src/htll.c:196-198 | The loop that wakes one waiter and moves all others does what FUTEX_REQUEUE is specified to do |
| HtllMachine.Machine.AnyoneSleeps | litl/src/htll.c:132-135 | Finds out whether any thread sleeps on the futex of a mutex |
| LockWord.StoredValue | litl/include/htll.h:99-106 | A 32-bit store leaves two bytes that read back as the value stored, and `& LOCKED` of the value tests the lock byte |
| LockWord.FourValuesAsU | litl/include/htll.h:99-106 | How the two bytes and the word agree: the value 257 is both bytes set, the low bit is the lock byte |
| SegmentWindow.ViolationsAreRare | litl/src/htll.c:355-369 | If contended ends violate exactly when the window has reached T >= 400000, any two violations are separated by at least 97 contended ends that satisfy their requirement |
| SegmentWindow.WindowBelow | litl/src/htll.c:150-156 | From htll_thread_start on the window stays below T + T/80, and its step at most T/80 |
| SegmentWindow.WindowInRange | litl/src/htll.c:355-369 | Whatever the ends, the window stays between 10000 and 2^64 and its step does not go below 1000 |
| SegmentWindow.FirstClimb | litl/src/htll.c:150-156 | Up to the first violation the window is 10000 plus 5000 for each satisfied end |
| SegmentWindow.Climb | litl/src/htll.c:356-363 | After a violation the window is half the violating one plus one 1/99 of that half for each satisfied end since |
| SegmentWindow.RecoveryBound | litl/src/htll.c:356-366 | After a violation at w >= 197999, up to 99 satisfied ends leave the window at most w, and 99 bring it to at least w - 99 |
| SegmentWindow.RecoversIffLarge | litl/src/htll.c:356-366 | Both together hold after a violation at w if and only if w >= 197999 |
| SegmentRuns.WindowOfRun | litl/src/htll.c:325-377 | In any well-bracketed run with any nesting, the window of segment j is what the ends of segment j make of it one after the other, each with the duration and the contention that the events alone give it |
| SegmentRuns.WindowBoundedInRun | litl/src/htll.c:325-377 | The bound T + T/80 in any such run of a thread |
| SegmentTimes.EndIsMeasured | litl/src/htll.c:325-346 | At an end of segment j the controller measures the time since the last start of j, modulo 2^64, whatever was nested in between, and sees j contended if and only if a lock call has slept in j since the last end that took notice |
| SegmentTimes.StartTimeIsLast | litl/src/htll.c:325-335 | At any point of a well-bracketed run the start time kept for segment j is that of its last start |
| SegmentTimes.FlagIsContended | litl/src/htll.c:86-369 | At any point the waiter flag of segment j says whether it is contended, by the events alone |
| SegmentTimes.EndRefusedIff | litl/src/htll.c:337-377 | An end returns -EINVAL and changes nothing if and only if it names another segment than the innermost open one, which is contended, with a requirement of at least 100; any other closes the innermost one, whichever it names |
| SegmentRuns.FreshThread | litl/src/htll.c:150-156 | A thread starts outside any segment with all windows at 10000 and steps at 5000; a segment keeps them until its first end |
| SegmentRuns.WindowInRangeInRun | litl/src/htll.c:337-369 | In any well-bracketed run the window of j stays between 10000 and 2^64, and a contended end with a requirement below 100 takes it to 10000 |
| SegmentRuns.ViolationsAreRareInRun | litl/src/htll.c:325-377 | In any such run, between two events at which segment j violates its requirement, by the times of the events, at least 97 of its contended ends satisfy it, with the threshold put to the controller's own window at each end |
| SegmentNesting.NestingRestoresContext | litl/src/htll.c:300-377 | At every point of a well-bracketed sequence no call fails and the current segment is the innermost open one; when all are closed, stack and current segment are as before |
| SegmentNesting.OtherSegmentsUntouched | litl/src/htll.c:325-377 | Segments that the sequence does not name keep their windows |
| Segments.Controller.ThreadStart | litl/src/htll.c:150-156 | The loop resets window and step of all 256 segments, and nothing else but the current segment |
| Segments.Controller.SegmentStart | litl/src/htll.c:325-335 | Enters the segment, pushing the old one, or returns -EINVAL and changes nothing |
| Segments.Controller.AdjustCurrent | litl/src/htll.c:337-369 | The new window, step and waiter flag of the current segment, in all branches |
| Segments.Controller.SegmentEnd | litl/src/htll.c:337-377 | Leaves the segment as specified, or returns -EINVAL and changes nothing |
| Segments.Controller.PopSegment | litl/src/htll.c:317-321 | Removes and returns the top of the stack, or returns -EINVAL on an empty one |
| LockTable.SameLockIffSameMutex | litl/src/interpose.c:170-178 | Over any call sequence with fresh implementations and no full bucket, two uses return the same implementation exactly when they are for the same mutex |
| LockTable.UseReturnsFirst | litl/src/interpose.c:147-178 | Every use returns what the first call on that mutex allocated; later initialisations are shadowed |
| LockTable.PutInsertsIfAbsent | litl/src/interpose.c:90-122 | On the map that the table stands for, a put is insert-if-absent |
| LockTable.HashReachesExactly | litl/src/interpose.c:76-82 | The buckets that some address hashes to are exactly those below 40960 with bits 13 and 14 clear |
| LockTable.HashAddsFields | litl/src/interpose.c:76-82 | The bucket is the sum of the address's bits from 24 on and its bits 4 to 23, masked with 40959 |
| LockTable.FailsIffTenTaken | litl/src/interpose.c:90-178 | After any sequence of calls the next one finds no room if and only if it would take a slot, as a creation or the first use of its mutex, and ten earlier calls have taken one in its bucket |
| LockTable.PthreadLockTable.HashPut | litl/src/interpose.c:90-107 | Appends to the mutex's bucket and returns 0, or returns -1 exactly on a full bucket and changes nothing |
| LockTable.PthreadLockTable.HashGet | litl/src/interpose.c:109-122 | Returns the first value stored for the mutex, or NULL if there is none |
| LockTable.PthreadLockTable.HtLockCreate | litl/src/interpose.c:147-168 | Stores a new implementation, or reports the full bucket that ends the process |
| LockTable.PthreadLockTable.HtLockGet | litl/src/interpose.c:170-178 | Returns the stored implementation, or creates one |
| LockTableConcurrent.GetLinearizes | litl/src/interpose.c:109-122 | Under any interleaving a get that returns NULL began while its key was absent from the map, and one that returns a value returns the map's value for its key |
| LockTableConcurrent.GetAfterPut | litl/src/interpose.c:90-122 | With single puts, a get begun after a put of its key has returned yields the value put |
| LockTableConcurrent.SlotsAreWriteOnce | litl/src/interpose.c:94-104 | Under any interleaving keys never change and values are published at most once |
| LockTableConcurrent.PrefixAndFull | litl/src/interpose.c:94-106 | Claimed slots come first in every bucket, and a put returns -1 only if all ten slots of its bucket are taken |
| LockTableConcurrent.StepKeepsInv | litl/src/interpose.c:90-122 | Every slot is claimed by exactly one put, which stores its own key and value there; kept by every step |
| LockTableConcurrent.SpinnerHasPublisher | litl/src/interpose.c:114-118 | A get waits for a value only while the put that claimed the slot has yet to store it |
| LockTableProgress.CallIsOver | litl/src/interpose.c:90-122 | Under any interleaving a put is over within 22 steps of its own and a get within 12, not counting those that a get makes while it is held at a slot by a put about to store |
| LockTableProgress.HoldEnds | litl/src/interpose.c:114-118 | A get is held by one put at most, and no longer after that put's next step |
| LockTableProgress.StuckMeansOver | litl/src/interpose.c:90-122 | In a state of a run in which no call can change anything, every call is over |
| LockTableProgress.UnknownKeyAnswersNull | litl/src/interpose.c:109-122 | A get of a key that no call puts returns NULL within 12 steps of its own |
| LockTableProgress.PutOnFullBucket | litl/src/interpose.c:90-107 | A put that begins when all ten slots of its bucket are claimed returns -1 within 22 steps of its own |
| LockTableProgress.PutAnswers | litl/src/interpose.c:90-107 | After 22 steps of its own a put has returned 0 with its key and value in a slot of its bucket, or -1 with all ten slots claimed |
| LockTableLinear.Linearizable | litl/src/interpose.c:90-122 | With single puts, the calls of any run have one order in which each of them, executed alone on a map, answers what it answered; every call that is over is in it once, and a call that was over before another began comes first |
| LockTableLinear.MapIsReplay | litl/src/interpose.c:90-122 | At every step the table's map is what the calls that have taken effect so far make of it in that order, so it changes with a claim only |
| LockTableLinear.MapOfMaps | litl/src/interpose.c:97-101 | With single puts the claims are the graph of a map |
| LockTableDuplicates.BothSucceedIff | litl/src/interpose.c:90-107 | For any calls: some run has two puts of one mutex both return 0 if and only if two of the calls put the same mutex |
| ParkHandshake.ReturnsOnlyAfterOwnStore | litl/src/waiting_policy.h:102-164 | Over any number of rounds, a sleep returns only after the waker of its own round has stored 1 |
| ParkHandshake.NobodyOversleeps | litl/src/waiting_policy.h:121-164 | A sleeper asleep on a word that is 1 has the waker of its own round still about to call FUTEX_WAKE |
| ParkHandshake.LateWakeIsHarmless | litl/src/waiting_policy.h:143-164 | A FUTEX_WAKE from an earlier round at most moves the sleeper to its last loop, where it stays |
| ParkHandshake.StoredSleepEnds | litl/src/waiting_policy.h:102-202 | Once the word is 1, the sleeper and the pending wakers finish by themselves within 2 plus the number of pending wakes steps |
| ParkHandshake.ParksUnlessWoken | litl/src/waiting_policy.h:102-137 | While the word is 0 and no wake reaches it in the kernel, a sleep polls 4001 times and parks with its 4003rd step, or with its first if it does not spin, and after a signal it parks again |
| ParkHandshake.Rendezvous.Run | litl/src/waiting_policy.h:102-202 | From a new object on, whatever steps are proposed, those that are possible are done in place, through the states of a run, and the invariant holds |
| ParkHandshake.Rendezvous.Do | litl/src/waiting_policy.h:102-202 | Any step of the sleeper, a waker, the kernel or the client in place leaves the new state as specified |
| ParkHandshake.Rendezvous.BeginSleep | litl/src/waiting_policy.h:102-121 | The call of a sleep, which starts with the spin loop or with the futex |
| ParkHandshake.Rendezvous.BeginWake | litl/src/waiting_policy.h:154-158 | The call of a wake, about to store |
| ParkHandshake.Rendezvous.Interrupt | litl/src/waiting_policy.h:121-137 | A sleep interrupted by a signal calls the futex again |
| ParkHandshake.Rendezvous.SleepAccess | litl/src/waiting_policy.h:102-151 | One access of a sleep in place leaves the new state as specified and keeps the invariant |
| ParkHandshake.Rendezvous.StoreWord | litl/src/waiting_policy.h:154-159 | The store in place, with its wake still pending |
| ParkHandshake.Rendezvous.WakeOne | litl/src/waiting_policy.h:159-163 | The wake in place, of this round or an earlier one |
| TwoLockWait.OneInside | litl/src/pthreadinterpose.c:56-91 | At most one thread holds the mutex, and it holds both locks |
| TwoLockCalls.CallReturns | litl/src/pthreadinterpose.c:56-136 | Over a whole call in any run, a lock and a wait come back with both locks, an unlock with neither, and a trylock with both if and only if lock is free when it tries |
| TwoLockCalls.LocksInOrder | litl/src/pthreadinterpose.c:56-136 | On the way a call takes and gives up the two locks one at a time in exactly the promised order: lock, posix_lock to enter; posix_lock, lock to leave; and for a wait lock given up, posix_lock given up, taken and given up again, lock and posix_lock taken |
| TwoLockCalls.WaitHasSlept | litl/src/pthreadinterpose.c:116-136 | A wait comes back only after a sleep in which it held neither lock |
| TwoLockCalls.CallIsOver | litl/src/pthreadinterpose.c:56-136 | A call is over after exactly 3 (lock), 2 (unlock), 8 (wait), 2 (trylock that succeeds) or 1 (one that fails) steps of its own |
| TwoLockWait.NoCyclicWait | litl/src/pthreadinterpose.c:56-136 | In no reachable state does a chain of waits among lock, trylock, unlock and timedwait come back to its start; none involves more than three threads |
| TwoLockWait.NoDeadlock | litl/src/pthreadinterpose.c:56-136 | While some thread is in a call and not asleep, such a thread, or the holder of the mutex, can move |
| TwoLockWait.NoSignalInTheWindow | litl/src/pthreadinterpose.c:116-122 | Between a waiter's release of lock and its sleep nobody holds the mutex, so no holder can signal in between |
| TwoLockWait.WrappedMutex.Step | litl/src/pthreadinterpose.c:56-145 | One library call in place leaves the new state as specified and keeps the invariant |

## Left out

- Weak memory: store buffers and the exact effect of `mfence` are not modelled; accesses are sequentially consistent.
- Clocks: `rdtsc`, `gettimeofday`, `delay_ticks` and timeouts are choices of the scheduler; the conversion of absolute to relative times is not modelled, and what the two readings of the clock in a timed wait say is up to the scheduler.
- `cnt_wake`: it is incremented after the lock is released and races with its reset, so its two reads in `adjust_spin_ticks` are arbitrary.
- Spin phases: a phase polls an arbitrary finite number of times, at least twice; the link from `ticks_spin` to that number, and the doubling of `spin_ticks` inside a segment, are not modelled.
- HtllCompletion.TotalCompletion: threads that lock from inside a segment, condition variables and a client that nests several mutexes are not part of completion; spurious wakeups are excluded there, and only there.
- HtllStranding.NoStrandedSleeper: says nothing of a run after a wake that was the only cover of two sleepers and took one inside a segment; by StepBreaksKIff that wake does leave a sleeper without cover.
- HtllSignals.SignalsAreNotLost: other queue orders than first in, first out, and more than 2^32 increments, are excluded.
- HtllSignals.RunKeepsSorted: 2^32 increments or more are excluded; after a wraparound a thread with an old number can queue behind one with a new number.
- HtllSignalCalls.SignalCallsAreNotLost: the same exclusions.
- HtllBroadcastCalls.BroadcastReleasesWaiters: a broadcast that finds the variable unbound is excluded; BroadcastReachesAllIff shows that it can miss a waiter.
- LockTableConcurrent.GetAfterPut: keys that are put twice are excluded; with them the first slot in the bucket answers.
- LockTableLinear.Linearizable: keys that are put twice are excluded, and `ht_lock_get` as one call, a get followed by a put, is not part of the concurrent model.
- Segments.Controller.SegmentStart: segment id 256 and nesting deeper than 30, which the source lets through to an access outside its arrays, are outside the precondition.
- Segments.Controller.AdjustCurrent: a call outside any segment, where the source reads `segment[-1]`, is outside the precondition.
- Segments.Controller.SegmentEnd: a call outside any segment is outside the precondition, for the same reason.
- Outside any segment a lock call reads `segment[-1]` and a condition wait writes it, and the tables can be in use before `htll_thread_start` fills them: neither is modelled.
- `hash_get` in `LockTable`: its wait for a value is over at once when calls do not overlap; the wait itself is in `LockTableConcurrent`.
- Concurrent calls in `LockTableConcurrent`, and the clients of `ParkHandshake` and `TwoLockWait`, are step systems on values; `Rendezvous` and `WrappedMutex` execute the steps of the last two in place.
- Statistics: `spin_cnt`, `park_cnt`, `wake_cnt` and `lock_cnt`.
- `pthread_create` wrapping, symbol loading, signal plumbing, the rwlock wrappers, destruction and memory alignment.
- The MCS locks, of which there is only a header, the benchmark and the scripts.
