# A model of mt_asyncio's concurrent protocols

mt_asyncio is a work-stealing runtime with an asyncio layer on top. Almost every function of it
takes part in a protocol that decides who is woken, how often, and whether a wake can be lost. This
project models those protocols in Dafny and proves what they keep in every run.

Each protocol appears in two forms.

* **A step system.** One atomic operation or one critical section is one step, steps of all threads
  interleave in any order, and the numbers of workers, producers, tasks, futures and edges are
  unbounded. A run is any sequence of states linked by steps (`Runs.dfy`), and every main theorem is
  about every state of every run.
* **The objects.** The source's classes as Dafny classes, with their fields updated in place. Each
  method is proved against the function the step system uses, or against what the source promises of
  it. An object method is one undisturbed call, and lemmas named `…Alone` tie the two forms together:
  the step system's call with nobody else moving does what the object's method promises. What happens
  between the steps of several calls is the step system's business.

| file | models |
|---|---|
| `Runs.dfy` | runs and induction over them, sums over threads, wait queues |
| `Parking.dfy`, `ParkingSafety.dfy`, `ParkingCoverage.dfy`, `ParkingTheorems.dfy`, `ParkingConservation.dfy`, `ParkingStranding.dfy`, `ParkingGap.dfy` | worker parking: idle flags, counters, the throttle token, parker tokens, injector and deques |
| `WorkSchedule.dfy` | the same words as an object, and `find_work` |
| `Readiness.dfy`, `ScheduledIO.dfy` | the packed readiness word, arming against publishing |
| `FdHandle.dfy`, `FdHandleLevel.dfy`, `FdHandleForgetting.dfy`, `FdHandleDispatch.dfy`, `FdHandleObject.dfy` | level-triggered handles over edge-triggered readiness |
| `Registrations.dfy` | address tokens and deferred freeing |
| `Timers.dfy` | the deadline heap and the poll thread's sleep |
| `Suspensions.dfy` | exactly-once resume |
| `Streams.dfy` | the stream reader's generation counters |
| `Timeouts.dfy` | timeout scopes against task cancellation |
| `Semaphores.dfy`, `Queues.dfy` | permits, locks and bounded queues under cancellation |
| `TaskGroups.dfy`, `Futures.dfy`, `Gather.dfy` | task groups, futures under wake deferral, gather |

Five properties one might expect are false of the code. Each has a run that breaks it and a theorem
with the condition under which it holds:

* A handle announced by the throttled wake can be left behind for good, with every worker parked and
  no wake call open (`ThrottledWakeCanStrand`). A dropped announcement can end so if and only if its
  handle is still in the injector, no forced wake is under way, and the state is deserted: every
  worker past its last look at the injector, without a parker token and unclaimed, and every sweep
  still open an outside thread's that has tried its last flag (`DropStrandsForGood`). Being deserted
  is alone the exact condition for stranding it until some other announcement still under way comes
  through (`DropStrandsExactly`). Runs without a drop in a deserted state strand nothing, not even for
  a moment (`WatchfulNeverStranded`), and there is none while outside threads take turns.
* A level-triggered handle can be parked for good on a readable descriptor (`FullLapForgets`). The
  clear of a stale bit forgets what the kernel reports if and only if a nonzero multiple of 256 edges
  passed since its tick was recorded and what the kernel reports is on its way nowhere else; the
  handle can then be left forgotten if and only if it is active and its registration live
  (`ClearForgetsExactly`). Runs without such a clear forget nothing (`LevelTriggered`).
* A semaphore permit can vanish (`PermitCanBeLost`), exactly when a future is cancelled between the
  `done()` test and `set_result` (`Semaphores.CarefulRunsLoseNothing`, `GrantLosesExactlyIfCancelled`).
* A queue can lose an item (`ItemCanBeLost`): `get` removes it and then raises, exactly when the
  putter it wakes is cancelled between the `done()` test and `set_result`
  (`Queues.CarefulRunsLoseNothing`, `GetLosesExactlyIfCancelled`).
* A queue can leave a getter asleep beside a stored item (`ForsakenWakeIsLost`), only after a waiter
  was cancelled once woken or while being woken (`NobodySleepsBesideWork`); `ForsakingExact` and
  `StrikingExact` say exactly when each of the two does it.

Where the code and its documentation disagree the code is followed: the docstring of `pending_wakes`
speaks of the innermost region's exit, while only the outermost exit flushes.

## Model

| member | source | states |
|---|---|---|
| `ParkingTheorems.CountersAccount` | src/work.rs:40-98 | in every state of every run `speculation` is the number of sweeping producers plus claimed workers plus speculating workers, `idle_count` is the set flags less uncounted advertisements plus unsubtracted claims, and a wrapping machine word holding it is zero exactly when the count is |
| `ParkingConservation.EveryHandleOnce` | src/work.rs:100-227 | in every state of every run, a handle pushed is in exactly one place, once: the injector, a local deque, a worker's hand, or run; one never pushed is in none |
| `ParkingConservation.AllRunAtRest` | src/work.rs:147-227 | when nothing moves, every handle pushed has run, once, but for elided ones in the injector |
| `ParkingConservation.EveryPushAnnounced` | src/runtime.rs:319-347 | every push opens a wake call that decides about its handle, and nothing is decided about a handle never pushed |
| `ParkingConservation.NoReturnUnpaid` | src/work.rs:214-226 | workers return from `park` no more often than they were unparked |
| `ParkingConservation.LastSearcherPassesOn` | src/work.rs:149-154 | a searcher that found work gives its token back and wakes one more worker if and only if nobody else has a token out |
| `ParkingTheorems.QuiescentIsClean` | src/work.rs:147-227 | when every worker is blocked in `park` and no wake call is open, the throttle is open, every worker is flagged and counted idle, all deques are empty, and the injector holds only elided handles |
| `ParkingTheorems.StrandedOnlyIfElided` | src/work.rs:58-98 | a handle left in the injector with everyone parked and no unpark coming is one whose throttled wake was dropped in a deserted state |
| `ParkingTheorems.WatchfulNeverStranded` | src/work.rs:58-98 | in every run in which no announcement is dropped in a deserted state, no handle is ever stranded |
| `ParkingTheorems.ForcedNeverStranded` | src/runtime.rs:330-335 | a handle announced by the forced wake is never stranded, in any run |
| `ParkingTheorems.TakingTurnsNeverStranded` | src/runtime.rs:319-347 | with at most one outside thread between push and wake at a time, no handle is ever stranded, however announced |
| `ParkingStranding.DropStrandsForGood` | src/work.rs:61-71 | when a throttled announcement is dropped, some continuation of the run comes to rest with its handle in the injector, every worker blocked in `park` and no wake call open, if and only if the handle is still in the injector, the state is deserted, and no forced wake is under way |
| `ParkingStranding.DropStrandsExactly` | src/work.rs:61-71 | some continuation strands the handle, if only until another announcement under way comes through, if and only if the handle is still in the injector and the state is deserted; the token that stopped it is then with another outside thread past its last flag |
| `ParkingStranding.DoomedStrands` | src/work.rs:96-97 | from a deserted state with a handle left behind, a token out and no forced wake under way, the throttled calls are dropped, the workers walk over empty deques into `park`, the last sweeps give their tokens back, and nothing is left to move |
| `ParkingStranding.RescuedDropIsSafe` | src/work.rs:76-82 | with a forced wake under way, or in a state that is not deserted, no continuation comes to rest with the handle left behind |
| `ParkingStranding.OnlyAPushMovesOn` | src/work.rs:213-216 | at rest nothing can move but a new push by an outside thread |
| `ParkingStranding.CoveredDropIsSafe` | src/work.rs:65-71 | a handle whose announcement was dropped in any other state is never stranded in any continuation |
| `ParkingCoverage.DesertedIsUncovered` | src/work.rs:147-227 | deserted is exactly: no worker is bound to look at the injector again and no sweep has a flag left to try |
| `ParkingGap.ThrottledWakeCanStrand` | src/work.rs:58-98 | a run with one worker and two outside threads that ends with a handle stranded and nothing left to move |
| `ParkingCoverage.CoveredStep` | src/work.rs:190-213 | while the injector holds work, no step takes away the last worker bound to look again or the last sweep still on its way |
| `ParkingCoverage.ReachableStep` | src/work.rs:85-98 | a worker on its way into `park` always has its flag up, a parker token, or a claimer about to unpark it |
| `ParkingSafety.AccountingStep` | src/work.rs:147-227 | every step of workers and wake calls keeps both counters in balance |
| `WorkSchedules.FirstRaised` | src/work.rs:86-91 | the sweep stops at the first raised flag, or past the end when none is up |
| `WorkSchedules.WorkSchedule.constructor` | src/work.rs:26-38 | all flags and tokens down, both counters zero |
| `WorkSchedules.WorkSchedule.SetIdle` | src/work.rs:41-44 | raises one flag, counts it, changes nothing else |
| `WorkSchedules.WorkSchedule.ClearIdle` | src/work.rs:47-56 | true exactly if the flag was still up; only then is it uncounted |
| `WorkSchedules.WorkSchedule.UnparkOne` | src/work.rs:61-73 | the throttled wake: nothing if nobody is idle or a token is out, else one sweep with a token |
| `WorkSchedules.WorkSchedule.Unpark` | src/work.rs:76-82 | the forced wake: nothing if nobody is idle, else one sweep with a token |
| `WorkSchedules.WorkSchedule.WakeIdle` | src/work.rs:85-97 | the first raised flag goes down and its worker gets a parker token, keeping the speculation token out; with none raised that token goes back |
| `WorkSchedules.SweepAlone` | src/work.rs:85-97 | the step system's sweep, undisturbed, does to the shared words what the object's does |
| `WorkSchedules.WakeCallAlone` | src/work.rs:61-97 | a whole undisturbed wake call of the step system is one `unpark_one` or `unpark` on the object |
| `WorkSchedules.AdvertiseAlone` | src/work.rs:166 | the step system's two steps into idleness are `set_idle` |
| `WorkSchedules.RetractAlone` | src/work.rs:168-172 | with work found after advertising, the flag comes back as `clear_idle` says, or the claimer's token goes |
| `WorkSchedules.ReturnAlone` | src/work.rs:213-226 | a return from `park` uses the parker token up, clears the flag as `clear_idle` does and goes back to the first scan, searching exactly if the flag was claimed |
| `WorkSchedules.FindWorkAlone` | src/work.rs:100-130 | the step system's first scan, undisturbed, takes what `find_work` takes and leaves what it leaves |
| `WorkSchedules.RunQueues.FindWork` | src/work.rs:100-130 | newest of the own deque, else oldest of the injector, else oldest of the first loaded peer; nothing exactly when all are empty; only the source of the handle changes |
| `Readiness.PublishPacks` | src/io/schedule.rs:154-161 | `set_readiness` on the packed word is: join the bits, one more edge |
| `Readiness.ClearPacks` | src/io/schedule.rs:129-138 | the packed tick-guarded clear drops the direction's bits exactly when the edge counts agree modulo 256 |
| `Readiness.DropPacks` | src/io/schedule.rs:141-150 | the packed drain of a direction is the drain of the record |
| `Readiness.ArmTestPacks` | src/io/schedule.rs:105-112 | the mask test of `arm_cb` is: direction quiet and registration not gone |
| `Readiness.ShutPacks` | src/io/schedule.rs:183-186 | setting SHUTDOWN in the packed word is shutting the record |
| `Readiness.MaskPacks` | src/io/schedule.rs:8-19 | READ_ALL and WRITE_ALL are exactly a direction's own bits and ERROR |
| `Readiness.TickInjective` | src/io/schedule.rs:15-24 | two edge counts show the same 8-bit tick exactly when they agree modulo 256 |
| `Readiness.HistoryPacks` | src/io/schedule.rs:129-186 | over every history of edges, clears, drains and shutdown the packed word packs the record, whose edge count is the number of edges |
| `Readiness.TickGuardExact` | src/io/schedule.rs:129-138 | after any history, a clear with a tick read earlier acts if and only if the number of edges since is a multiple of 256 |
| `Readiness.DropsKeep` | src/io/schedule.rs:129-150 | clear and consume never alter SHUTDOWN or the tick, and cost the other direction at most the shared ERROR bit |
| `ScheduledIOs.ScheduledIO.constructor` | src/io/schedule.rs:60-68 | a new word packs the empty record |
| `ScheduledIOs.ScheduledIO.ArmCb` | src/io/schedule.rs:212-226 | reports ready exactly if the direction shows bits or the registration is gone; otherwise stores the callback; records the tick only when ready, only for its direction |
| `ScheduledIOs.ScheduledIO.ClearDirection` | src/io/schedule.rs:228-234 | with fewer than 256 edges since the recorded tick, bits change only if there was no edge since |
| `ScheduledIOs.ScheduledIO.ConsumeDirection` | src/io/schedule.rs:236-242 | reports whether the direction showed anything and leaves it quiet |
| `ScheduledIOs.ScheduledIO.PublishEdge` | src/io/schedule.rs:154-161 | the word packs one more published edge |
| `ScheduledIOs.ScheduledIO.Wake` | src/io/schedule.rs:163-181 | each direction with a ready, closed or error bit hands out its waiter and callback and is left empty; the other keeps both |
| `ScheduledIOs.ScheduledIO.Shutdown` | src/io/schedule.rs:183-186 | every slot is handed out and no direction can be armed again |
| `Arming.NoEdgeIsLost` | src/io/schedule.rs:104-186 | in every interleaving of arm, publish and wake, clear, consume and shutdown, a stored callback on a direction that shows readiness or is shut has a wake pending for it; and every callback is, as often as it was armed, with its arm, parked, given back, replaced or taken, so none is handed out more often than armed |
| `Arming.ArmAlone` | src/io/schedule.rs:104-121 | an arm of the step system, undisturbed, stores exactly when `ArmCb` does and gives the callback back otherwise |
| `Arming.PublishAlone` | src/io/schedule.rs:154-181 | publishing and waking, undisturbed, is the object's publish and wake, slots and callbacks handed out included |
| `Arming.ShutdownAlone` | src/io/schedule.rs:183-186 | shutting down, undisturbed, leaves nothing armable and nothing parked |
| `Arming.DropAlone` | src/io/schedule.rs:129-150 | a consume, and a clear with a current tick, leave the direction quiet and touch nothing else |
| `FdHandleSafety.OneTokenStep` | mt_asyncio/asyncio/_loop.py:206-275 | an active handle is in exactly one place: parked, in the poll thread's hand, queued, told, or with one thread |
| `FdHandleLevel.LevelTriggered` | mt_asyncio/asyncio/_loop.py:206-275 | in every run without a forgetting clear, an active handle on a ready descriptor has an undelivered edge, a poller holding it, a queued or running dispatch, or an `_arm` in progress |
| `FdHandleForgetting.ClearForgetsExactly` | mt_asyncio/asyncio/_loop.py:227-230 | in every reachable state the clear keeps the kernel's level known if and only if it is not a forgetting one; and the handle can be left forgotten afterwards, without a further forgetting clear, if and only if this one forgets, the handle is active and its registration live |
| `FdHandleLevel.DispatchesNeverOverlap` | mt_asyncio/asyncio/_loop.py:232-275 | no two threads ever act for the same handle |
| `FdHandleDispatch.EveryDispatchRuns` | mt_asyncio/asyncio/_loop.py:271-275 | every dispatch begun has run the user's callback, is on its way to or in it, or was skipped, and none is skipped unless the handle was cancelled |
| `FdHandleDispatch.CancelStopsTheCallback` | mt_asyncio/asyncio/_loop.py:194-196 | after a cancel the callback does not start again; at most the one call under way still finishes |
| `FdHandleLevel.ClearLosesExactly` | src/io/schedule.rs:129-138 | the clear of a stale bit leaves everything the kernel reports cached, undelivered or in the poll thread's hand if and only if its tick is not lapped, or what it drops is undelivered or in that hand |
| `FdHandleLap.FullLapForgets` | src/io/schedule.rs:129-138 | a run with exactly 256 edges between tick and clear that parks an active reader on a readable descriptor with nothing left to wake it |
| `FdHandleObjects.FdHandle.ArmLoop` | mt_asyncio/asyncio/_loop.py:206-230 | parks on a quiet direction, dispatches a ready one, clears a stale bit and parks, and gives up with one dispatch on a registration that is gone |
| `FdHandleAlone.ArmAlone` | mt_asyncio/asyncio/_loop.py:206-230 | the step system's `_arm`, undisturbed, does in every case what the object's loop does, retries included |
| `FdHandleAlone.DeregisterAlone` | src/io/schedule.rs:183-186 | tearing the registration down, undisturbed, leaves nothing armable and tells whoever was parked |
| `Registrations.TokensNameLiveRegistrations` | src/runtime.rs:71-143 | every token in the kernel or in an undispatched batch points at the registration it was issued for, kept by the map, a deregister in progress or the release list, even when addresses are used again |
| `Registrations.ReleasePointReleases` | src/runtime.rs:71-78 | in every run, an address in the release list whose deregister is over is out of it once the poll thread has passed the release point |
| `Registrations.Runtime.constructor` | src/runtime.rs:361-400 | a new runtime is a first state of the step system |
| `Registrations.Runtime.IoRegister` | src/runtime.rs:164-175 | the undisturbed call is the step system's register, then the kernel's answer, then the undo on refusal, which leaves map, kernel and references as they were |
| `Registrations.Runtime.IoDeregister` | src/runtime.rs:177-204 | the undisturbed call is the step system's four deregister steps in order: out of the map, out of the kernel, into the release list, flag up; a second call changes nothing |
| `Registrations.Runtime.ReleasePoint` | src/runtime.rs:71-78 | the release list is emptied exactly if the flag was up |
| `Timers.CompareIsInverted` | src/time.rs:23-39 | the ordering is a total preorder whose maxima are the earliest deadlines |
| `Timers.PushedFiresWhenDue` | src/runtime.rs:349-353 | a pushed timer fires once more in a pass at its deadline or later, stays once more in an earlier one, and changes nothing for any other timer |
| `Timers.TimerHeap.Peek` | src/runtime.rs:84-93 | a timer with the earliest deadline, nothing exactly when the heap is empty |
| `Timers.TimerHeap.Pass` | src/runtime.rs:145-159 | a pass at tick T removes exactly the timers due by T, each once, in non-decreasing deadline order |
| `Timers.PassIsDetermined` | src/runtime.rs:145-159 | what a pass keeps and fires is fixed by the heap and the tick, multiplicities included |
| `Timers.NeverOutsleepsATimer` | src/runtime.rs:80-105 | unless a wake is pending or its adder is mid-call, every timer in the heap allows the sleep computed at the clock sample; once asleep, the poll thread is due to wake no later after the deadline, or after the sample if the deadline had passed, than the time from the sample to falling asleep |
| `Timers.WakesForATimer` | src/runtime.rs:80-105 | when an unwoken sleep is over, some timer in the heap is due, short of deadlines beyond 64 bits; without a limit the thread sleeps only over announced timers |
| `Timers.NoSleepEndsUnasked` | src/runtime.rs:315-317 | a call of `wake` ends at most one sleep |
| `Suspensions.ResumedExactlyOnce` | src/events.rs:397-414 | racing setters, inline wake and timer enqueue at most one handle, exactly one once the waker is registered and the winning `set` is done, or once the timer has run; an unresumed suspension still has its waker queued, and a wanted timer is in the heap, on its way, or run |
| `Suspensions.SetAlone` | src/events.rs:57-65 | a `set` that nobody disturbs leaves the event set and has woken a queued waker, as the object's does |
| `Suspensions.Event.constructor` | src/events.rs:50-55 | the flag is down and nobody waits |
| `Suspensions.Event.Resume` | src/events.rs:397-414 | the first resume enqueues the handle, later ones do nothing |
| `Suspensions.Event.AddWaker` | src/events.rs:37-44 | wakes inline on a set event, else queues at the back |
| `Suspensions.Event.SetFlag` | src/events.rs:57-65 | everyone queued is resumed, nobody twice and nobody else |
| `Streams.ParkedHasSeenEveryFeed` | mt_asyncio/asyncio/_streams.py:102-140 | a reader parked on a pending future is registered, its condition is false on the current buffer, and there is no EOF or exception |
| `Streams.EmptyReadMeansEnd` | mt_asyncio/asyncio/_streams.py:112-131 | `read(n)` with n > 0 returns nothing only after EOF or an exception |
| `Streams.NothingLostOrInvented` | mt_asyncio/asyncio/_streams.py:75-140 | bytes returned followed by bytes buffered are the bytes fed, and waits end, early or woken, no more often than there are feeds |
| `Streams.ReadsKeepTheirWord` | mt_asyncio/asyncio/_streams.py:102-140 | `read(n)` gave at most n bytes, and some unless the stream had ended or failed; `readexactly(n)` gave n, or fewer at the end; a read raised only after a failure and was interrupted only by a cancellation; every read begun but the current one has ended so |
| `Streams.FailureRaisesInTheParkedRead` | mt_asyncio/asyncio/_streams.py:85-88 | a failure that finds a read parked raises in it |
| `Streams.CancelInterruptsTheParkedRead` | mt_asyncio/asyncio/_streams.py:135-140 | a cancellation that finds a read parked interrupts it, whatever is fed before the task runs |
| `Streams.StreamReader.constructor` | mt_asyncio/asyncio/_streams.py:62-69 | empty buffer, both generations zero, no waiter |
| `Streams.StreamReader.FeedData` | mt_asyncio/asyncio/_streams.py:75-78 | every feed moves the generation; a non-empty one appends and wakes |
| `Streams.StreamReader.FeedEof` | mt_asyncio/asyncio/_streams.py:80-83 | moves the generation, marks the end and wakes |
| `Streams.StreamReader.SetException` | mt_asyncio/asyncio/_streams.py:85-88 | moves the generation, marks the failure and fails the waiter |
| `Streams.StreamReader.DecideToPark` | mt_asyncio/asyncio/_streams.py:113-133 | catches up with the generation and either returns with something to see or registers a waiter |
| `Timeouts.ScopeDoesNotLeak` | mt_asyncio/asyncio/_timeouts.py:78-107 | after exit no timer cancels or can cancel the task, the scope's net effect on the count is nil, the count is what outsiders made it, and a cancellation flag still up has a request behind it or is being withdrawn |
| `Timeouts.TimeoutRaisedExactly` | mt_asyncio/asyncio/_timeouts.py:78-96 | in every state of every run after the scope, TimeoutError was raised if and only if a timer callback got in before the exit took the lock, the body ended in a cancellation, and no outside request was standing, finished or in flight, when the exit read the counter |
| `Timeouts.TimeoutRaisedByHistory` | mt_asyncio/asyncio/_timeouts.py:78-107 | the same read off the run: some step took the scope from entered to expiring, and at the step where the verdict fell nothing stood outside |
| `Timeouts.CancelTakesEffect` | mt_asyncio/asyncio/_tasks.py:102-118 | however interleaved, the step that ends a cancel leaves the flag up or has just ended the future the task is parked on |
| `Timeouts.CancelAloneIsTheObjects` | mt_asyncio/asyncio/_tasks.py:102-118 | a cancel that nobody disturbs does what the object's does |
| `Timeouts.OutsideAloneIsTheObjects` | mt_asyncio/asyncio/_tasks.py:102-118 | so does an outside cancel, from its call on |
| `Timeouts.UncancelAloneIsTheObjects` | mt_asyncio/asyncio/_tasks.py:123-131 | an uncancel that nobody disturbs withdraws the flag with the last request and only then |
| `Timeouts.TimerAloneIsTheObjects` | mt_asyncio/asyncio/_timeouts.py:98-107 | a timer callback that nobody disturbs does what the object's does |
| `Timeouts.ExitAloneIsTheObjects` | mt_asyncio/asyncio/_timeouts.py:78-96 | an exit that nobody disturbs does what the object's does, verdict included |
| `Timeouts.ParksUncancelled` | mt_asyncio/asyncio/_futures.py:66-101 | an await with the flag up delivers the cancellation instead of parking; otherwise it parks on a future that no cancel under way is aimed at |
| `Timeouts.NoDeliveryUnasked` | mt_asyncio/asyncio/_tasks.py:102-131 | cancellations reach the task no more often than they were asked for |
| `TimeoutObjects.Task.Cancel` | mt_asyncio/asyncio/_tasks.py:102-118 | counts the request and cancels the pending future the task is parked on, or else sets the flag |
| `TimeoutObjects.Task.Uncancel` | mt_asyncio/asyncio/_tasks.py:123-131 | takes one request back if there is one; the last one withdraws the flag |
| `TimeoutObjects.Timeout.OnTimeout` | mt_asyncio/asyncio/_timeouts.py:98-107 | cancels the task only from inside the scope |
| `TimeoutObjects.Timeout.Exit` | mt_asyncio/asyncio/_timeouts.py:78-96 | leaves the scope, takes the deadline's request back, and says whether TimeoutError is raised |
| `TimeoutObjects.Timeout.FireAndExit` | mt_asyncio/asyncio/_timeouts.py:78-107 | a deadline before or after the exit leaves the task's count as it was |
| `Semaphores.PermitsConserved` | mt_asyncio/asyncio/_sync.py:137-165 | free, held, granted and in-release permits plus lost ones are always the initial value, and a free permit never coexists with a queued waiter |
| `Semaphores.MutualExclusion` | mt_asyncio/asyncio/_sync.py:86-114 | with one permit no two tasks hold, have been granted, or are releasing it |
| `Semaphores.CarefulRunsLoseNothing` | mt_asyncio/asyncio/_sync.py:137-165 | if no future is cancelled between its test and its grant, no permit is lost and every pending waiter is queued or in a releaser's hand |
| `Semaphores.GrantLosesExactlyIfCancelled` | mt_asyncio/asyncio/_sync.py:158-165 | past the `done()` test, the grant loses the permit if and only if the future has been cancelled since |
| `Semaphores.PermitCanBeLost` | mt_asyncio/asyncio/_sync.py:158-165 | a run that ends with the only permit free nowhere, held by nobody, and nobody waiting |
| `Semaphores.AcquireAlone` | mt_asyncio/asyncio/_sync.py:137-143 | the step system's acquire is the object's request |
| `Semaphores.ReleaseAlone` | mt_asyncio/asyncio/_sync.py:158-165 | in every reachable state, a release that nobody disturbs does to permits, queue and futures what the object's does |
| `SemaphoreObjects.FirstLive` | mt_asyncio/asyncio/_sync.py:160-164 | the first queued future that is not done, all before it being done |
| `SemaphoreObjects.Semaphore.constructor` | mt_asyncio/asyncio/_sync.py:125-130 | all permits free, nobody queued |
| `SemaphoreObjects.Semaphore.Request` | mt_asyncio/asyncio/_sync.py:137-143 | takes a permit only if one is free and nobody is queued, else joins the queue |
| `SemaphoreObjects.Semaphore.Release` | mt_asyncio/asyncio/_sync.py:158-165 | the permit goes to the first live waiter, passing over none but done ones, and those behind stay queued in order; with none live it goes back |
| `SemaphoreObjects.Lock.constructor` | mt_asyncio/asyncio/_sync.py:77-80 | a free one-permit semaphore |
| `SemaphoreObjects.Lock.Request` | mt_asyncio/asyncio/_sync.py:86-92 | the one-permit semaphore's request |
| `SemaphoreObjects.Lock.Release` | mt_asyncio/asyncio/_sync.py:107-114 | a held lock passes to the first live waiter and stays held, or is unlocked when there is none: the one-permit semaphore's release |
| `Queues.FifoWithinCapacity` | mt_asyncio/asyncio/_sync.py:295-349 | in every run, cancellations included, items removed followed by items stored are the items put, in order; a positive bound is never exceeded; and every item removed was returned once, is in a getter's hand, or is lost |
| `Queues.CarefulRunsLoseNothing` | mt_asyncio/asyncio/_sync.py:327-334 | if no waiter is cancelled between its test and its grant, no item is lost |
| `Queues.GetLosesExactlyIfCancelled` | mt_asyncio/asyncio/_sync.py:327-334 | past the `done()` test, `get` loses the item it removed if and only if that putter has been cancelled since |
| `Queues.ItemCanBeLost` | mt_asyncio/asyncio/_sync.py:327-334 | a run that ends with an item put, not stored, and returned to nobody |
| `Queues.NobodySleepsBesideWork` | mt_asyncio/asyncio/_sync.py:305-349 | unless a waiter is cancelled once woken or between its test and its grant, a pending getter implies stored items <= woken getters yet to re-check and wakes under way, and a pending putter implies the same of free slots |
| `Queues.ForsakingExact` | mt_asyncio/asyncio/_sync.py:345-349 | a woken waiter's cancellation keeps that if and only if nobody else is pending or the promises outnumber what is available |
| `Queues.StrikingExact` | mt_asyncio/asyncio/_sync.py:299-303 | so does a cancellation between test and grant, for getters and putters alike |
| `Queues.ForsakenWakeIsLost` | mt_asyncio/asyncio/_sync.py:336-349 | a run that ends with an item stored, a getter asleep and nobody on the way |
| `QueueObjects.Queue.constructor` | mt_asyncio/asyncio/_sync.py:253-263 | an empty queue with nobody waiting |
| `QueueObjects.Queue.WakeGetter` | mt_asyncio/asyncio/_sync.py:299-303 | somebody is woken whenever one is live: the first such; those behind it stay queued in order |
| `QueueObjects.Queue.WakePutter` | mt_asyncio/asyncio/_sync.py:329-333 | somebody is woken whenever one is live: the first such; those behind it stay queued in order |
| `QueueObjects.Queue.TryPut` | mt_asyncio/asyncio/_sync.py:307-312 | stores at the back and wakes one getter exactly if there is room, else joins the putters |
| `QueueObjects.Queue.TryGet` | mt_asyncio/asyncio/_sync.py:338-342 | takes the oldest item and wakes one putter exactly if there is one, else joins the getters |
| `TaskGroups.NoErrorIsLost` | mt_asyncio/asyncio/_tg.py:68-82 | when the parent leaves its wait loop every child has finished and been recorded, none can appear, and the errors hold each failed child exactly once and nothing else |
| `TaskGroups.NoWakeIsLost` | mt_asyncio/asyncio/_tg.py:128-168 | a parent parked on an empty group is owed its wake by some child's callback |
| `TaskGroups.NoEarlyWake` | mt_asyncio/asyncio/_tg.py:164-168 | a callback sets out to wake the parent only when the body is over and no child is still to be recorded |
| `TaskGroups.EachWaitIsNew` | mt_asyncio/asyncio/_tg.py:68-82 | a parent at the head of its loop has dropped the future it waited on, and the next one is settled by nobody before it is waited on |
| `TaskGroups.EmptyMeansAllRecorded` | mt_asyncio/asyncio/_tg.py:104-115 | with the body over and the set empty, every child ever created has been recorded, even one that ran before it was added |
| `TaskGroups.TaskGroup.RecordDone` | mt_asyncio/asyncio/_tg.py:139-149 | leaves the set and enters the errors in one step |
| `TaskGroups.TaskGroup.DecideWake` | mt_asyncio/asyncio/_tg.py:164-168 | the object does the step system's second critical section, by the one function both share |
| `TaskGroups.TaskGroup.NextWait` | mt_asyncio/asyncio/_tg.py:68-74 | leave on an empty set, else wait on the one shared future |
| `Futures.EachJobExactlyOnce` | mt_asyncio/asyncio/_futures.py:118-192 | at most one completion wins and wakes the awaiters once; each callback is waiting, on its way, held back or scheduled exactly as often as it was added and not removed; each thread's jobs are released in order |
| `Futures.AllReleasedAtRest` | mt_asyncio/asyncio/_futures.py:118-192 | with the future done and every thread out of its regions and idle, the awaiters' wake has been released once and each callback as often as it was added and not removed |
| `Futures.RegionHoldsBack` | mt_asyncio/asyncio/_wakes.py:71-91 | while a thread stays inside nested regions it releases nothing, and all it set off since waits in order |
| `Futures.RegionRoundTrip` | mt_asyncio/asyncio/_wakes.py:71-91 | entering a region, completing the future and leaving: done at once, nothing released before the exit, then the awaiters' wake and every callback in the order added |
| `Futures.RemovedIsGone` | mt_asyncio/asyncio/_futures.py:182-188 | a callback removed while the future is pending is nowhere any more, and every other is where it was |
| `Futures.KeepsOrder` | mt_asyncio/asyncio/_futures.py:184-187 | the callbacks kept stay in their order |
| `Futures.Future.constructor` | mt_asyncio/asyncio/_futures.py:41-52 | pending, with no callbacks |
| `Futures.Future.Complete` | mt_asyncio/asyncio/_futures.py:118-154 | the first completion leaves its outcome for good and takes all callbacks away in order; a later one changes nothing |
| `Futures.Future.AddDoneCallback` | mt_asyncio/asyncio/_futures.py:173-180 | registered while pending, scheduled at once when done |
| `Futures.Future.RemoveDoneCallback` | mt_asyncio/asyncio/_futures.py:182-188 | every registration of the callback goes, the others keep their order, and the count is returned |
| `Futures.DeferWakes.EnterRegion` | mt_asyncio/asyncio/_wakes.py:71-76 | one level deeper, nothing collected is dropped |
| `Futures.DeferWakes.Append` | mt_asyncio/asyncio/_loop.py:383-395 | collected inside a region, released at once outside |
| `Futures.DeferWakes.ExitRegion` | mt_asyncio/asyncio/_wakes.py:78-91 | only the outermost exit releases, everything, in order, going on after and reporting every wake that raises |
| `Gathers.SettledByFirstDecision` | mt_asyncio/asyncio/_ctl.py:157-179 | for every order of callbacks and any outer cancellation, the outer future is pending until the first deciding event, holds that event's verdict ever after, and is settled at most once |
| `Gathers.OrderDoesNotMatter` | mt_asyncio/asyncio/_ctl.py:171-176 | with every child reported and none failing, the outer future holds all outcomes in argument order, whatever order they came in |
| `Gathers.FirstFailureWins` | mt_asyncio/asyncio/_ctl.py:162-170 | without `return_exceptions`, the first callback of a child that raised or was cancelled settles the outer future with that exception |
| `Gathers.EveryOutcomeInItsPlace` | mt_asyncio/asyncio/_ctl.py:171-176 | otherwise the result holds, child by child, its value, its exception, or a CancelledError |
| `Gathers.Gather.constructor` | mt_asyncio/asyncio/_ctl.py:145-155 | one empty slot per child, nothing settled; with no children, the empty result at once |
| `Gathers.Gather.ChildDone` | mt_asyncio/asyncio/_ctl.py:157-176 | one locked callback is one step of the model |
| `Gathers.Gather.RunAll` | mt_asyncio/asyncio/_ctl.py:157-179 | running the callbacks in the order of any history leaves what the model says of that history |

## Left out

- Shutdown of workers (`stop_threads`, the `work_stopping` exits of `work_loop`): tokens are dropped there.
- Weak memory orderings: interleavings are sequentially consistent.
- `Steal::Retry` and spurious returns of `park`: a steal either succeeds or finds the deque empty, and `park` returns only with a token.
- `Event.clear`, multi-event waits with a `Sentinel`, `abort` and checkpoints (`src/events.rs`): the asyncio layer does not use them.
- Replacing a handle by a second `add_reader` or `add_writer` on the same direction: each direction's handle is added once.
- The native `arm_r`/`arm_w` waiters run by the same double check as `arm_cb`; only the callback slots are in the step system, the object has all four.
- `BinaryHeap` and the deques of crossbeam are taken by their contracts, as a multiset with its maximum and as sequences; clock readings are integers.
- Write flow control and pausing of streams, and readers other than `read(n)` and `readexactly(n)`; the standard library's copy-then-delete of the buffer is one step.
- `Timeout.reschedule`: timers are taken to fire at any time, so a fire on an old deadline is among the runs; prompt delivery of a cancellation is not claimed.
- An outside `uncancel` only withdraws an outside `cancel` that has finished; the counter's increments are single steps.
- `BoundedSemaphore`, and `release` by a task that holds no permit.
- FifoWithinCapacity: LIFO and priority queues, `join` and `task_done` are not modelled; the same holds for the other queue theorems.
- TokensNameLiveRegistrations: the kernel is taken to honour every deregister, though `io_deregister` ignores an error (`src/runtime.rs:183`), and to keep one interest per descriptor number until it is closed, though epoll keeps the interest of a closed descriptor while a duplicate of it is open.
- NoErrorIsLost: aborting the siblings, cancelling the parent and the early refusals of `create_task` are left out, so the model has more runs than the code; children are created by the body or by running children only.
- SettledByFirstDecision: an outer cancellation falls between two callbacks; one that falls between the `done()` test and the settlement inside a callback makes that callback raise and leaves the outer future cancelled all the same. The children's cancellation after it is left out.
- `Condition`, `asyncio.Event`, `wait`, `shield`, `wait_for`.
- Transports, TLS, `sock_*`, name resolution, signals, the blocking thread pool, handle stepping and the foreign-function layer.
