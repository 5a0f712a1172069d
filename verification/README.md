# Callback registries and stack traces of mulle-core-all-load, verified in Dafny

This project models the two callback registries of mulle-core-all-load and the
parts of its stack traces that compute something, and proves what they do.

* **mulle-atinit** gathers callbacks with priorities and runs them once at
  startup: it sorts what is queued, takes callbacks from the end of the array
  and calls each with its lock released. Callbacks may register more callbacks,
  and so may other threads. What "phase" the registry is in is not stored; it is
  read off the number of queued callbacks and the size of the block.
* **mulle-atexit** is the same protocol without priorities and without sorting,
  run at exit.
* **mulle-stacktrace** writes a trace through one stateful callback per frame
  and cuts the lines of `backtrace_symbols`.

## How it is built

| file | contents |
|---|---|
| `Sequences.dfy`, `Callbacks.dfy` | callbacks as finite trees: what is called, and what one call registers |
| `Capacity.dfy` | growth of the block in 32-bit unsigned arithmetic |
| `PrioritySort.dfy`, `Mergesort.dfy` | the reference order, and the array mergesort proved against it |
| `Registry.dfy` | the fields of a registry as values; the operations both layers below share |
| `RunTrace.dfy`, `RunProperties.dfy` | the trace of a run in closed form, and what follows from it |
| `AtInit.dfy`, `AtExit.dfy` | the two registries as classes with fields, an array, a lock and the run loop |
| `AtExitOrder.dfy` | the order of late registrations where callbacks are bare functions |
| `Threads.dfy`, `ThreadPhases.dfy`, `ThreadLedger.dfy`, `ThreadOrder.dfy`, `Schedules.dfy` | a registry under any number of threads and any schedule |
| `LateRegistrations.dfy`, `TwoThreads.dfy` | when the run loop takes what any thread registers during the run |
| `RunDiscipline.dfy` | in which order it takes callbacks, whatever the threads do |
| `ThreadRegistrations.dfy`, `EarlyRegistrations.dfy` | from the order of each thread's code to the order of the starts |
| `SingleThread.dfy` | the thread model with one thread agrees with the closed form |
| `Trimming.dfy`, `Rendering.dfy`, `TraceTexts.dfy` | stack traces |

The main results are these.

1. `AtInit.AtInitRegistry.RunCallbacks` and
   `AtExit.AtExitRegistry.RunExitCallbacks`: for any queue of callback trees the
   events of a run are `RunEvents` of the stable descending order (or of the
   reverse registration order). Every callback but the last is followed by what
   it registered, last-registered first; the last one contains what it
   registers, first-registered first.
2. `Schedules.EveryCompleteSchedule`: with one thread that runs the registry and
   any number of threads that register, every schedule ends, without deadlock,
   with a drained registry in which everything that anyone registered has
   started exactly once and what was queued before the run has started in the
   run's order. `EarlyRegistrations` spells that order out by priorities and
   positions, and follows it from the code of each thread:
   `FirstRegisteredStartsFirst`, `LastRegisteredStartsFirst`.
3. `Mergesort.MergesortInternal` with `PrioritySort.AntiStableAscendingIsSorted`:
   the merge that prefers the right half on ties, followed by taking callbacks
   from the end, is a stable descending sort.
4. `LateRegistrations.LoopTakesLateRegistrationsIff`: over every complete
   schedule of all the threads, the run loop takes everything that is registered
   during the run if and only if no registration finds the queue empty before
   the registry is drained. `RunDiscipline.LastRegisteredFirstIff`: under the same
   condition, and only then, it takes everything and always the last registered
   of what is left. For one thread, `RunProperties.LoopRunsEverythingIff`
   and `AtExitOrder.ExitStartsAreLifoIff` say it of the registered callbacks
   alone.

The class layer and the thread layer use the same `RunsAtOnce`, `Push`, `Pop`,
`Prepared` and `DRAINED`. The methods that are the locked sections of the
classes (`AddCallback`, `Queue`, `SortQueued`, `TakeLast`) ensure that they do to
`State()` what the thread model's action does to the fields
(`Threads.FieldsAfter`, `Threads.ActOnFields`).

In the classes nothing is known of `n`, `size` and the block while the lock is
free. `Lock` makes them what its last holder left, `published`; `Unlock` gives them
up. A read or write outside of the lock therefore has nothing to stand on, and
every contract between two locked sections speaks of `published` and the trace.

### Where the code and its documentation differ

The model follows the code.

* `src/mulle-atinit/index.md:17` says that callbacks added during a run are
  appended and taken by the run loop, whichever thread adds them. While the
  *last* queued callback is out of the queue, the queue is empty and has a size,
  so what anyone registers then is called at once, by the registering thread.
  `LoopTakesLateRegistrationsIff` gives the exact condition for all schedules,
  and `SecondThreadBypassesLoop` an instance with two threads in which the last
  callback itself registers nothing. The theorems of `RunProperties` and
  `AtExitOrder` are about one thread; there `LoopRunsEverythingIff` reads the
  condition off the last callback.
* `src/mulle-atexit/index.md:11` promises last-registered-first order as in the
  standard `atexit`. For the same reason the registrations of the
  first-registered callback start in registration order, and so do those that
  other threads make while it is out of the queue. `LastRegisteredFirstIff` gives
  the exact condition for all schedules, `ExitStartsAreLifoIff` what it comes to
  for one thread, `LifoFails` an instance.
* `src/mulle-atinit/index.md:16` calls the mergesort stable because it compares
  with `<`. The sort reverses equal priorities; taking callbacks from the end
  reverses them back.
* `src/mulle-stacktrace/mulle-stacktrace-backtrace.c:80` says that the default
  filter leaves out uninteresting frames. A frame that the symbolizer does not
  name is judged by its whole line, which starts with the address, so a frame is
  left out if and only if the symbolizer names it and the name is boring:
  `DefaultFilterIff`, with an instance in `TestAllocatorIsShown`.
* `src/mulle-stacktrace/mulle-stacktrace-execinfo.c:109` says that the leading
  path is removed and the file name kept. The file name is always kept, but of a
  path in which a directory begins at or after the first "(+0x" some directory is
  kept too: `CutRemovesPathIff`, with an instance in `CutLeavesDirectory`.

### Assumptions

* The mutex works, and is initialised before anything else happens.
* An allocation succeeds or ends the program.
* Fewer than 2^31 callbacks are involved, counting those that callbacks register
  (`MAX_CALLBACKS`); `GrownWrapsAtLimit` shows what happens at the limit. The
  sort's bounds, its midpoint, the cast of its size and its indices, one past the
  end included, have the type `CInt`, so below the limit none of them overflows.
* Each registry is run once, by one thread.
* What a callback registers is fixed when it is registered: a finite tree. A
  callback that registers something different on each call is not covered.
* Registrations with a NULL function are part of the model and are ignored.

## Model

| member | source | states |
|---|---|---|
| Mergesort.CopyRange | src/mulle-atinit/mulle-atinit.c:80-84 | the first loop of the merge copies the range to the temporary array |
| Mergesort.TakeNext | src/mulle-atinit/mulle-atinit.c:93-104 | one turn of the merging loop keeps the relation between what is produced, what is unread and what has not moved |
| Mergesort.MergeRuns | src/mulle-atinit/mulle-atinit.c:86-106 | the merging loop produces the front of the merge, leaves the unread part of the right run in place, and compares fewer times than there are entries |
| Mergesort.CopyLeftRest | src/mulle-atinit/mulle-atinit.c:108-117 | the last loop completes the merge up to the right run's rest, which does not move |
| Mergesort.Merge | src/mulle-atinit/mulle-atinit.c:72-118 | the range becomes the merge of its two runs, the rest of the array is unchanged, with at most n-1 comparisons |
| Mergesort.MergeFromIsMerged | src/mulle-atinit/mulle-atinit.c:91-106 | merging by positions in the array is merging the two runs as sequences |
| Mergesort.MergeDone | src/mulle-atinit/mulle-atinit.c:116-118 | with the left run used up, nothing needs to be copied from the right one |
| Mergesort.MergesortInternal | src/mulle-atinit/mulle-atinit.c:121-137 | sorts exactly the given range into the reference order backwards, with at most the comparisons of its halves and of one merge |
| Mergesort.PrioritizedCallbackMergesort | src/mulle-atinit/mulle-atinit.c:140-153 | up to 2^31 - 1 first entries are sorted and the others kept, without an int overflow; NULL and one entry are left alone; at most n * ceil(log2 n) comparisons |
| Mergesort.ComparisonBound | src/mulle-atinit/mulle-atinit.c:121-137 | what the recursion may compare is at most n * ceil(log2 n) |
| Mergesort.HalvesBound | src/mulle-atinit/mulle-atinit.c:126-136 | the recurrence behind the comparison bound for halves of ceil(n/2) and floor(n/2) |
| Mergesort.CeilLog2Exact | src/mulle-atinit/mulle-atinit.c:128-132 | the bound's logarithm is the binary one, rounded up |
| PrioritySort.StableDescendingProperties | src/mulle-atinit/mulle-atinit.c:213-216 | the reference order is a permutation, descends in priority, and keeps registration order inside each priority |
| PrioritySort.SortedProperties | src/mulle-atinit/mulle-atinit.c:222-229 | the sorted array ascends and reverses registration order inside each priority |
| PrioritySort.AscendingUnique | src/mulle-atinit/mulle-atinit.c:213-216 | ascending order together with the order inside each priority determines the array |
| PrioritySort.AntiStableAscendingIsSorted | src/mulle-atinit/mulle-atinit.c:93-104 | any ascending, tie-reversing arrangement taken from its end is the stable descending order |
| PrioritySort.MergedAscending | src/mulle-atinit/mulle-atinit.c:90-106 | merging ascending runs ascends |
| PrioritySort.MergedAntiStable | src/mulle-atinit/mulle-atinit.c:93-104 | on equal priorities the merge puts the right run first |
| PrioritySort.MergedSorted | src/mulle-atinit/mulle-atinit.c:130-135 | merging two sorted halves is sorting the whole, for every pair of inputs |
| Capacity.GrownMakesRoom | src/mulle-atinit/mulle-atinit.c:284-287 | below 2^31 entries the doubling never wraps, always makes room, and stays of the form 32 * 2^k |
| Capacity.CapacityBounds | src/mulle-atinit/mulle-atinit.c:237-239 | no size in use equals the mark of a finished run |
| Capacity.GrownWrapsAtLimit | src/mulle-atinit/mulle-atinit.c:286 | at 2^31 entries the doubling wraps to zero |
| Capacity.AmortisedGrowth | src/mulle-atexit/mulle-atexit.c:170-177 | n registrations move fewer than 2n entries in all, and the block is never twice too large |
| Registry.ExitOrderSpelledOut | src/mulle-atexit/mulle-atexit.c:92-96 | position by position, mulle-atexit runs its queue backwards |
| Registry.InitOrderSpelledOut | src/mulle-atinit/mulle-atinit.c:213-216 | mulle-atinit runs it by descending priority and in registration order inside each |
| Registry.PreparedProperties | src/mulle-atinit/mulle-atinit.c:222-232 | what a run prepares is a permutation whose reverse is the run's order |
| Registry.PushSound | src/mulle-atinit/mulle-atinit.c:341-354 | queueing keeps the fields sound and never makes the registry look finished |
| RunTrace.RegisteredBeforeRun | src/mulle-atinit/mulle-atinit.c:307-363 | before a run any registrations only fill the queue, in order and without the NULL ones, with the block size of the growth rule, and nothing is called |
| RunTrace.CalledAtOnce | src/mulle-atinit/mulle-atinit.c:341-352 | with nothing queued in a run a call is one nested block of events and leaves the registry alone |
| RunTrace.CalledQueued | src/mulle-atinit/mulle-atinit.c:255-261 | with callbacks queued a call returns before anything it registers starts, and queues that in order |
| RunTrace.DrainTurn | src/mulle-atexit/mulle-atexit.c:90-112 | one turn of the loop is one callback followed by the drain of the queue it leaves |
| RunTrace.TurnShrinks | src/mulle-atinit/mulle-atinit.c:224-262 | every turn lowers the number of callbacks still to come, so a run ends |
| RunTrace.DrainIsRun | src/mulle-atinit/mulle-atinit.c:224-262 | emptying the stack from its end is the closed form over the reverse of the stack |
| AtInit.AtInitRegistry.constructor | src/mulle-atinit/mulle-atinit.c:156-175 | the registry starts empty, without a block, unlocked |
| AtInit.AtInitRegistry.Lock | src/mulle-atinit/mulle-atinit.c:339 | only with the lock are the fields known: they are what its last holder left |
| AtInit.AtInitRegistry.Unlock | src/mulle-atinit/mulle-atinit.c:356 | what the fields hold is handed over, and nothing is known of them any more |
| AtInit.AtInitRegistry.Reallocate | src/mulle-atinit/mulle-atinit.c:287 | the new block begins with all entries of the old one |
| AtInit.AtInitRegistry.AddCallback | src/mulle-atinit/mulle-atinit.c:279-296 | pushes one callback, the others are kept through growth; it is the thread model's push |
| AtInit.AtInitRegistry.Register | src/mulle-atinit/mulle-atinit.c:307-363 | ignores NULL, calls at once with the lock released, or queues; in each case the whole new state and all events |
| AtInit.AtInitRegistry.RegisterAll | src/mulle-atinit/mulle-atinit.c:255 | the registrations of a callback take effect one by one, in order |
| AtInit.AtInitRegistry.Call | src/mulle-atinit/mulle-atinit.c:255 | a call makes its registrations through Register, which needs the lock to be free |
| AtInit.AtInitRegistry.TakeLast | src/mulle-atinit/mulle-atinit.c:224-240 | takes the last callback, or drains; the NULL test succeeds exactly when nothing is queued; it is the thread model's take |
| AtInit.AtInitRegistry.SortQueued | src/mulle-atinit/mulle-atinit.c:220-222 | under the lock, sorts what is queued in place, as the thread model's sort does |
| AtInit.AtInitRegistry.TakeAndCall | src/mulle-atinit/mulle-atinit.c:224-261 | one turn of the loop is one turn of the closed form, with the lock free during the call, or drains |
| AtInit.AtInitRegistry.LoopUntilDrained | src/mulle-atinit/mulle-atinit.c:224-262 | the loop ends drained and unlocked, its events are the drain of the queue |
| AtInit.AtInitRegistry.RunCallbacks | src/mulle-atinit/mulle-atinit.c:202-266 | the events of a run are the closed form of the stable descending order; it ends drained, and running again calls nothing |
| AtExit.AtExitRegistry.constructor | src/mulle-atexit/mulle-atexit.c:74-126 | the registry starts empty, without a block, unlocked |
| AtExit.AtExitRegistry.Lock | src/mulle-atexit/mulle-atexit.c:160 | only with the lock are the fields known: they are what its last holder left |
| AtExit.AtExitRegistry.Unlock | src/mulle-atexit/mulle-atexit.c:180 | what the fields hold is handed over, and nothing is known of them any more |
| AtExit.AtExitRegistry.BeginRun | src/mulle-atexit/mulle-atexit.c:89-90 | a run begins by taking the lock and leaves the queue as it is, as the thread model's run does |
| AtExit.AtExitRegistry.Reallocate | src/mulle-atexit/mulle-atexit.c:173 | the new block begins with all entries of the old one |
| AtExit.AtExitRegistry.Queue | src/mulle-atexit/mulle-atexit.c:170-177 | pushes one callback, the others are kept through growth; it is the thread model's push |
| AtExit.AtExitRegistry.Register | src/mulle-atexit/mulle-atexit.c:129-186 | ignores NULL, calls at once with the lock released, or queues; returns 0 |
| AtExit.AtExitRegistry.RegisterAll | src/mulle-atexit/mulle-atexit.c:109 | the registrations of a callback take effect one by one, in order |
| AtExit.AtExitRegistry.Call | src/mulle-atexit/mulle-atexit.c:109 | a call makes its registrations through Register, which needs the lock to be free |
| AtExit.AtExitRegistry.TakeLast | src/mulle-atexit/mulle-atexit.c:90-104 | takes the last callback, or drains; the NULL test succeeds exactly when nothing is queued; it is the thread model's take |
| AtExit.AtExitRegistry.TakeAndCall | src/mulle-atexit/mulle-atexit.c:90-112 | one turn of the loop is one turn of the closed form, with the lock free during the call, or drains |
| AtExit.AtExitRegistry.LoopUntilDrained | src/mulle-atexit/mulle-atexit.c:90-112 | the loop ends drained and unlocked, its events are the drain of the queue |
| AtExit.AtExitRegistry.RunExitCallbacks | src/mulle-atexit/mulle-atexit.c:83-113 | the events of a run are the closed form of the reverse registration order; it ends drained |
| AtExit.AtExitRegistry.Unload | src/mulle-atexit/mulle-atexit.c:208-215 | the destructor's NULL registration changes nothing, and the run follows |
| RunProperties.RunOnce | src/mulle-atinit/mulle-atinit.c:224-262 | in a run every queued callback and everything registered on the way starts and finishes exactly once |
| RunProperties.PlainRun | src/mulle-atexit/mulle-atexit.c:83-113 | callbacks that register nothing start and finish one by one, in the run's order |
| RunProperties.LoopRunsEverythingIff | src/mulle-atinit/mulle-atinit.c:341-354 | with one thread, late registrations are all taken by the run loop if and only if the last callback taken registers nothing |
| RunProperties.LateStartsAreLifoIff | src/mulle-atinit/mulle-atinit.c:341-354 | with one thread, late registrations start last-registered first throughout the run if and only if the last callback taken is symmetric |
| AtExitOrder.BareIff | src/mulle-atexit/mulle-atexit.c:74-80 | two callbacks are one to mulle-atexit if and only if they have the same function and register as many, one to it each |
| AtExitOrder.ExitLifoFails | src/mulle-atexit/mulle-atexit.c:162-168 | two functions registered by one callback start in registration order, which can be told from last-registered first if the functions differ |
| AtExitOrder.ExitStartsAreLifoIff | src/mulle-atexit/mulle-atexit.c:162-178 | the same for bare functions, told apart by their code and what it registers alone |
| AtExitOrder.RunBare | src/mulle-atexit/mulle-atexit.c:83-113 | a run of bare functions starts what the run starts, seen bare |
| RunProperties.SymmetricIff | src/mulle-atexit/mulle-atexit.c:162-178 | nested and looped starts of one callback agree if and only if its registrations read the same both ways, all the way down |
| RunProperties.LifoFails | src/mulle-atexit/mulle-atexit.c:162-168 | a single callback that registers two others starts them in registration order |
| Threads.AnyStart | src/mulle-atinit/mulle-atinit.c:307-363 | any code before and after the run, and any number of threads with any code, is a start |
| Threads.WaitsForLockOnly | src/mulle-atinit/mulle-atinit.c:339 | a thread with something to do cannot step if and only if it waits for a lock that is held |
| Threads.LockStep | src/mulle-atinit/mulle-atinit.c:339-356 | in every step the lock is held exactly by the thread whose next action is a locked one |
| ThreadPhases.RunnerStep | src/mulle-atinit/mulle-atinit.c:202-266 | the run stays with its one thread |
| ThreadPhases.PhaseStep | src/mulle-atinit/mulle-atinit.c:224-240 | every step keeps what the fields mean: before the run, during it, and drained |
| ThreadPhases.TestIsAdequate | src/mulle-atinit/mulle-atinit.c:341 | the test "nothing queued but a size" holds exactly when a run has begun and nothing is queued |
| ThreadPhases.PushPhase | src/mulle-atinit/mulle-atinit.c:354 | callbacks are queued only before the run or between two turns of its loop |
| Threads.ActOnFields | src/mulle-atinit/mulle-atinit.c:220-242 | what an action does to the fields depends on the fields alone |
| ThreadLedger.LedgerStep | src/mulle-atinit/mulle-atinit.c:220-261 | no step loses or duplicates a callback: started, queued and still to come are conserved |
| ThreadLedger.CostStep | src/mulle-atinit/mulle-atinit.c:224-262 | every step of every thread lowers the work left |
| ThreadOrder.OrderStep | src/mulle-atinit/mulle-atinit.c:213-232 | late registrations leave the sorted part of the queue alone, and its callbacks start from its end |
| Schedules.EverySchedule | src/mulle-atinit/mulle-atinit.c:202-363 | all of this holds after every schedule, whose length is bounded by the work at its start |
| Schedules.NoDeadlock | src/mulle-atinit/mulle-atinit.c:339-356 | while any thread has something left to do, some thread can step |
| Schedules.NoSelfDeadlock | src/mulle-atinit/mulle-atinit.c:255-261 | no thread waits for the lock while it holds it |
| Schedules.QueueChangesUnderLock | src/mulle-atinit/mulle-atinit.c:220-242 | the fields change only in steps of the thread that holds the lock |
| Schedules.QueueIsReadUnderLock | src/mulle-atinit/mulle-atinit.c:339-356 | a step of a thread that does not hold the lock is the same whatever the fields are |
| Schedules.CallsAreUnlocked | src/mulle-atinit/mulle-atinit.c:348-352 | a thread that starts a callback does not hold the lock |
| Schedules.FieldsTellThePhase | src/mulle-atinit/mulle-atinit.c:341 | whenever the lock is free, the stored fields tell the phase |
| Schedules.EmptinessIsAbsorbing | src/mulle-atexit/mulle-atexit.c:162-168 | once a run has emptied the queue, it stays empty after every further schedule |
| Schedules.DrainedIsAbsorbing | src/mulle-atexit/mulle-atexit.c:98-104 | a drained registry stays drained after every further schedule |
| Schedules.NothingStartsBeforeTheRun | src/mulle-atexit/mulle-atexit.c:162-178 | no callback starts before the run |
| Schedules.EarlyStartsAreOrdered | src/mulle-atinit/mulle-atinit.c:213-232 | at every point of every schedule, what was queued before the run has started in the run's order so far |
| Schedules.Completes | src/mulle-atinit/mulle-atinit.c:202-363 | from every point of every schedule, some way of going on ends |
| Schedules.EveryCompleteSchedule | src/mulle-atinit/mulle-atinit.c:202-363 | every schedule ends drained, unlocked, with every registration started exactly once and the early ones in order |
| Schedules.FitsMeans | src/mulle-atinit/mulle-atinit.c:151 | the theorems hold for fewer than 2^31 callbacks, counting what callbacks register |
| ThreadRegistrations.CodeRegistersInOrder | src/mulle-atinit/mulle-atinit.c:307-363 | over every schedule, what some running code has brought to the queue, in order, and what it has still to register is what it had to register |
| ThreadRegistrations.CallRegistersInOrder | src/mulle-atinit/mulle-atinit.c:255 | the same inside every call of a callback |
| ThreadRegistrations.ThreadRegistersInOrder | src/mulle-atinit/mulle-atinit.c:307-363 | the same for the code of every thread, from start to end |
| EarlyRegistrations.QueueFollowsCode | src/mulle-atinit/mulle-atinit.c:290-295 | the queue of a run is what was registered before it, in order; each thread's part of it is the begin of its code |
| EarlyRegistrations.InitStartsByPriority | src/mulle-atinit/mulle-atinit.c:213-216 | at every point of every schedule, what was registered before the run has started by descending priority and in registration order inside each; in the end all of it |
| EarlyRegistrations.ExitStartsBackwards | src/mulle-atexit/mulle-atexit.c:92-96 | at every point of every schedule, position by position, what was registered before the run has started backwards; in the end all of it |
| EarlyRegistrations.FirstRegisteredStartsFirst | src/mulle-atinit/mulle-atinit.c:213-216 | of two callbacks of equal priority that the code of one thread registers before the run, the first starts first |
| EarlyRegistrations.LastRegisteredStartsFirst | src/mulle-atexit/mulle-atexit.c:92-96 | of two functions that the code of one thread registers before the run, the last starts first |
| LateRegistrations.EveryLateRegistration | src/mulle-atinit/mulle-atinit.c:220-261 | after every schedule, what was registered during the run is queued, in the run's hand, started by the run, or found nothing queued |
| LateRegistrations.LoopTakesLateRegistrationsIff | src/mulle-atinit/mulle-atinit.c:341-352 | over every complete schedule, the run loop takes all that is registered during the run if and only if no registration finds nothing queued; the run's thread calls what it takes |
| RunDiscipline.LastRegisteredFirstIff | src/mulle-atexit/mulle-atexit.c:90-104 | over every complete schedule, the run takes everything queued before it or registered during it, each time the last registered of what is left, if and only if no registration finds nothing queued |
| RunDiscipline.CallsFollowTakes | src/mulle-atinit/mulle-atinit.c:224-261 | at every point of every schedule, the run has called what it took, in that order, but for one in its hand |
| RunDiscipline.TakenHaveReturned | src/mulle-atinit/mulle-atinit.c:255-261 | whenever the run is about to take the next callback or to drain, all it took before has been called and has returned |
| RunDiscipline.RunCallsWhatItTakes | src/mulle-atinit/mulle-atinit.c:224-261 | after a complete schedule the run has called exactly what it took, in that order |
| TwoThreads.SecondThreadBypassesLoop | src/mulle-atinit/mulle-atinit.c:341-352 | some complete schedule starts a second thread's registration first, before the queued callback, and the run loop has not taken all that was registered during the run |
| SingleThread.OneThreadMatchesClosedForm | src/mulle-atexit/mulle-atexit.c:83-186 | with one thread every complete schedule starts callbacks in the order of the closed form, then later registrations at once |
| Trimming.StrstrSpelledOut | src/mulle-stacktrace/mulle-stacktrace-execinfo.c:110 | a search finds the first place where the pattern stands, character by character |
| Trimming.TrimBellyFat | src/mulle-stacktrace/mulle-stacktrace-execinfo.c:104-128 | where the kept part of a line begins, with and without "(+0x"; the loop ends |
| Trimming.TrimArseFat | src/mulle-stacktrace/mulle-stacktrace-execinfo.c:131-140 | the kept length ends before the first " [0x" |
| Trimming.CutIsUnique | src/mulle-stacktrace/mulle-stacktrace-execinfo.c:110-121 | the description of the cut leaves no choice |
| Trimming.CutRemovesPathIff | src/mulle-stacktrace/mulle-stacktrace-execinfo.c:109-121 | the cut never loses any of the file name, and removes the whole leading path if and only if no directory of the path begins at or after the first "(+0x" |
| Trimming.CutLeavesDirectory | src/mulle-stacktrace/mulle-stacktrace-execinfo.c:109-121 | a line of which a directory is kept |
| Trimming.DocumentedLine | src/mulle-stacktrace/mulle-stacktrace-execinfo.c:102-140 | of a line in the first documented form both cuts together keep the end of the path, with all of the file name, and the offset; and no directory under the same condition |
| Trimming.DocumentedSymbolLine | src/mulle-stacktrace/mulle-stacktrace-execinfo.c:103-140 | of a line in the second documented form they keep the symbol and its offset, and nothing of the path if and only if no '(' is in it |
| Trimming.LibraryLines | src/mulle-stacktrace/mulle-stacktrace-execinfo.c:102-103 | the two forms of a line, in full |
| Trimming.OffsetLineIsCut | src/mulle-stacktrace/mulle-stacktrace-execinfo.c:102-140 | a line of the first form, in full |
| Trimming.SymbolLineIsCut | src/mulle-stacktrace/mulle-stacktrace-execinfo.c:103-140 | a line of the second form, in full |
| Rendering.StacktraceContext.NormalCallback | src/mulle-stacktrace/mulle-stacktrace-backtrace.c:179-233 | after one more frame the fields and the output are those of the frames seen |
| Rendering.StacktraceContext.LinefeedCallback | src/mulle-stacktrace/mulle-stacktrace-backtrace.c:246-296 | the same without trimming |
| Rendering.ShowFrame | src/mulle-stacktrace/mulle-stacktrace-backtrace.c:225-232 | a shown frame adds one piece, with a delimiter exactly if something was shown before |
| Rendering.SkipFrame | src/mulle-stacktrace/mulle-stacktrace-backtrace.c:193-223 | a dropped or boring frame changes nothing but the count of frames seen |
| Rendering.Stacktrace | src/mulle-stacktrace/mulle-stacktrace-backtrace.c:379-430 | a trace is the joined pieces of the frames that are neither dropped nor boring, in the format's brackets |
| Rendering.BacktraceFull | src/mulle-stacktrace/mulle-stacktrace-backtrace.c:379-430 | one call of the callback per frame leaves the fields of all the frames |
| TraceTexts.NamedFrame | src/mulle-stacktrace/mulle-stacktrace-backtrace.c:213-225 | the text of a frame that the symbolizer names is that name |
| TraceTexts.UnnamedFrame | src/mulle-stacktrace/mulle-stacktrace-backtrace.c:199-211 | the text of any other frame, character by character, with function and file, either, or neither; of a longer one the first 511 characters |
| TraceTexts.OneFrame | src/mulle-stacktrace/mulle-stacktrace-backtrace.c:219-228 | with any hooks, the trace of one frame: nothing if it is boring, and otherwise as much of the trimmed text as its measure says |
| TraceTexts.WholeFrame | src/mulle-stacktrace/mulle-stacktrace-backtrace.c:179-233 | the whole trace of one frame with hooks that keep everything |
| TraceTexts.MainFrame | src/mulle-stacktrace/mulle-stacktrace-backtrace.c:201-205 | one such trace in full |
| TraceTexts.TwoFrames | src/mulle-stacktrace/mulle-stacktrace-backtrace.c:228-230 | the trace of two frames, with what separates them |
| TraceTexts.PartsOfTrace | src/mulle-stacktrace/mulle-stacktrace-backtrace.c:228-230 | the trace of a list of frames is that of its parts, with one separator between them |
| TraceTexts.OffsetDrops | src/mulle-stacktrace/mulle-stacktrace-backtrace.c:193-197 | exactly the first `offset` frames are left out |
| TraceTexts.BoringLeavesNoMark | src/mulle-stacktrace/mulle-stacktrace-backtrace.c:219-223 | a boring frame leaves no mark, wherever it stands |
| TraceTexts.BoringNames | src/mulle-stacktrace/mulle-stacktrace-backtrace.c:81-114 | the names that the default filter leaves out, prefix by prefix |
| Rendering.DefaultFilterIff | src/mulle-stacktrace/mulle-stacktrace-backtrace.c:81-114 | the default filter leaves out a frame if and only if the symbolizer names it and the name is boring |
| Rendering.TestAllocatorIsShown | src/mulle-stacktrace/mulle-stacktrace-backtrace.c:199-223 | a frame of test_calloc_or_raise that is shown |
| Rendering.DefaultShowsEveryFrameIff | src/mulle-stacktrace/mulle-stacktrace-backtrace.c:199-223 | a trace with the default filter shows every frame if and only if the symbolizer finds no boring one |

## Left out

- Trace output, debug output and environment variables: output only.
- Constructor and destructor wiring, `mulle_dlsym_exe`, `DllMain` and the two load domains of a shared and a static copy: decided by linker and loader.
- The insides of the mutex and of once-initialisation: taken as a lock that at most one thread holds, and as an initial state.
- Failing allocations: they end the program.
- `mulle_atinit_reset` and calls of `mulle_atinit_add_callback` or of a run by test code in other states: not part of this model.
- AtInit.AtInitRegistry.AddCallback: needs a function that is not NULL and a registry that is not drained, as its only caller in the library ensures; on a drained registry the C code would write through a NULL block.
- A second run of the same registry by some thread: the library runs each registry once, from one constructor or destructor.
- Callbacks whose registrations depend on what other threads do: a callback is a fixed tree.
- RunProperties.LoopRunsEverythingIff: speaks of one thread; LateRegistrations.LoopTakesLateRegistrationsIff is the statement for any number.
- AtExitOrder.ExitStartsAreLifoIff: speaks of one thread; RunDiscipline.LastRegisteredFirstIff is the statement for any number.
- Schedules.EveryCompleteSchedule: speaks of starts, not of when callbacks finish; with several threads a callback that is called at once can overlap the last callback of the run.
- The identity of the block between two locked sections: `Lock` sets up a block with the entries that the last holder left, in place of the same one.
- Bytes of memory after `free`: a freed block is a null reference, which every access is proved not to meet.
- Mergesort.PrioritizedCallbackMergesort: the temporary array is collected rather than freed.
- Rendering.Stacktrace: the formatted address and line digits, the frames and the symbolizer's answers are inputs; a backtrace state that cannot be created is not modelled.
- The symbolizer's text is also formatted into a buffer that is then not used (`src/mulle-stacktrace/mulle-stacktrace-backtrace.c:214-217`): without effect on the output.
- The CSV format, `mulle_stacktrace_dump`, the nop backend, frame counting and the trimming functions of the other backends: plain formatting or foreign calls.
- Version numbers, generated headers and build files: constants and plumbing.
