# A verified model of the QWebServer fiber runtime

QWebServer runs fibers on a scheduler with worker threads, an epoll-based I/O
manager, an ordered set of timers, and hooked blocking calls that suspend the
calling fiber until its descriptor is ready or a timeout passes.  This project
models how these four work together and proves what a user of the runtime relies
on: no fiber is lost or resumed twice, a timeout never hits a later wait, the
kernel's epoll set mirrors the descriptor table, and nothing is left behind when
the workers exit.  Two self-contained parts are modelled beside it: the text and
the masks of addresses, and the log pattern parser.

`dafny verify dfyconfig.toml` checks the whole project.

## How it is organised

| file | what it holds |
|---|---|
| `Types.dfy` | fiber states, events, tasks; collecting the fibers a sequence holds |
| `TaskQueue.dfy` | the task list: scheduling one task or a batch, and a worker's scan |
| `TimerSet.dfy`, `TimerManager.dfy` | timers as a map of deadlines, as the ordered set, and as the class that updates the set in place |
| `EventTable.dfy`, `EventEffects.dfy`, `IoManager.dfy` | the descriptor table with its epoll mirror: the operations, what each comes to field by field, and the class that does them in place |
| `Runtime.dfy` | the one-worker runtime as a state machine |
| `RuntimeInvariant.dfy`, `RuntimeSteps.dfy`, `RuntimeRequests.dfy`, `RuntimeTurns.dfy` | its inductive invariant and the proof that every action keeps it |
| `RuntimeEffects.dfy` | what each step comes to: where a fiber goes on, whom readiness, cancels and timeouts wake |
| `RuntimeTheorems.dfy`, `RuntimeRounds.dfy`, `RuntimeTimers.dfy`, `RuntimeExample.dfy` | what follows for every run, and two runs |
| `Scheduler.dfy`, `SchedulerEffects.dfy`, `SchedulerTasks.dfy`, `SchedulerHandles.dfy`, `SchedulerPinned.dfy` | the scheduler with any number of workers |
| `Ipv6Text.dfy`, `Ipv6Recommended.dfy`, `HostSplit.dfy`, `BitMath.dfy`, `PrefixMasks.dfy` | address text, the host/service split and prefix masks |
| `LogPattern.dfy` | the log pattern parser |

**One worker.**  A fiber's segment from resume to yield is one action or a few;
between them any call into the manager may come, so user code is arbitrary.  A
suspended C++ stack is a continuation that says where in a hooked call the fiber
stands.  The environment chooses which registered events are ready, with or
without an error or hang-up, whether the kernel refuses a control request, what
other threads schedule, and how far the clock moves on.  Assumed of users: at most one waiter for an event of a descriptor, descriptors are not
negative, a registered descriptor is not closed without `cancelAll`, fibers
suspend only in hooked calls or by `YieldToReady`, a fiber is scheduled once when
it is created, `delEvent` is not called where a fiber waits (see `ForgetIff` for
what happens otherwise), a period added to the clock stays below 2^64, and outside
scheduling ends when `stop` is called.  Until then other threads may schedule
callbacks and new fibers and add timers; they do not call addEvent, delEvent or
cancelEvent, nor cancel or reset timers.

**Any number of workers.**  Scanning under the lock, dispatching, running,
re-enqueueing a fiber that yielded, idling and leaving are separate steps, freely
interleaved.

**Where code and comments differ, the code is followed.**  The comment at
src/address.cpp:64-74 asks for the longest run of zero groups to be compressed and
a single zero group not to be; the printer compresses the first run, whatever its
length, and `RecommendedIff` says exactly when that comes to the same.  The comments
at src/timer.cpp:157 and src/timer.cpp:203 speak of a clock that moved back; the code
reports a jump forward of over an hour, and then every timer is released.

**Properties that do not hold as one might state them**, each with its exact
condition and an input that shows it:

- `delEvent` loses the fiber waiting there (`ForgetIff`, `DelEventLosesAFiber`);
- a task pinned to one thread, and no other, can be left behind when all workers
  leave (`RemainsIff`, `PinnedTaskCanRemain`);
- an unbracketed host with several colons is not split as intended
  (`UnbracketedIff`, `UnbracketedGoesWrong`);
- the IPv6 network address keeps the tail of the address (`Network6Iff`,
  `Network6GoesWrong`);
- empty braces after a log item are lost (`Lossless`, `EmptyBracesAreLost`).

## Model

| member | source | states |
|---|---|---|
| `TaskQueue.Queue.ScheduleNoLock` | include/schedular.h:82-90 | a task is appended unless its handle is null, and a wake-up is asked for exactly when the list was empty |
| `TaskQueue.Queue.ScheduleBatch` | include/schedular.h:38-51 | of a batch of fibers or callbacks each that is not null is appended once, in order; a wake-up is asked for exactly when the list was empty and the batch is not |
| `TaskQueue.Queue.Scan` | src/schedular.cpp:118-147 | nothing is taken exactly when every task is pinned to another thread or its fiber executes; else the first task of which neither is true is removed, the rest keeps its order and nothing is lost or duplicated; tickle is skipped exactly when all that is left stood before it, is open to this thread and is executing |
| `TaskQueue.Queue.FindTask` | src/schedular.cpp:122-139 | where the walk along the list stops, and that it passed a task of another thread |
| `TaskQueue.PickWritten` | src/schedular.cpp:122-139 | everything before the stop is pinned to another thread or executing, the task at it is open to this thread and not executing |
| `TimerSet.InsertSorted` | src/timer.cpp:8-25 | inserting a timer of a new address keeps the strict order by deadline, then address |
| `TimerSet.InsertMap` | src/timer.cpp:192-192 | insertion adds exactly that timer |
| `TimerSet.RemoveMap` | src/timer.cpp:27-40 | erasing removes exactly that timer |
| `TimerSet.RefreshMap` | src/timer.cpp:49-62 | refresh sets exactly that timer's deadline to one period from now and keeps its period, kind and callback |
| `TimerSet.ResetMap` | src/timer.cpp:64-89 | reset gives exactly that timer the new period, and the deadline one new period after now or after the old start |
| `TimerSet.ExpireAt` | src/timer.cpp:145-181 | a timer is released if and only if it is due at the reading or a rollover is reported; it stays only if it recurs, one period after the reading; others are unchanged |
| `TimerSet.ExpireExact` | src/timer.cpp:145-181 | the whole release on the ordered set is the release on the set of deadlines, and keeps the order |
| `TimerSet.ReleaseOrdered` | src/timer.cpp:161-169 | the released timers come in set order, once each, and none is also kept |
| `TimerSet.ManagerRun` | src/timer.cpp:27-201 | over every sequence of calls with a non-decreasing clock: strict order, no timer twice, deadline at least the period, the flag is up only if the owner was notified since the last sampling, and of every timer due before the deadline last sampled it was notified |
| `TimerSet.WhenNotified` | src/timer.cpp:192-200 | an insertion notifies exactly when the timer goes before all others and the flag is down; only then the flag goes up |
| `TimerSet.NextWritten` | src/timer.cpp:128-143 | the time left is 0 exactly if some timer is due, and else leads to the least deadline |
| `TimerSet.ReleasedWritten` | src/timer.cpp:145-169 | the released timers are exactly those due, or all after a jump of over an hour, once each, by deadline and then address |
| `TimerSet.KeptWritten` | src/timer.cpp:166-180 | of the released timers exactly the recurring stay, due one period after the reading; the others are as they were |
| `TimerSet.RefreshKeeps` | src/timer.cpp:49-62 | refresh bypasses the notifying insertion without losing a wake-up |
| `TimerSet.ExpireKeeps` | src/timer.cpp:170-176 | so does re-arming |
| `TimerSet.NoTimerMeansEmpty` | src/timer.cpp:128-143 | the "none" value is returned exactly for an empty set |
| `TimerManagement.TimerManager.Add` | src/timer.cpp:113-119 | the new timer, due one period from now, joins the set; the owner is notified exactly when it is first and no notification is open, and the flag goes up exactly with that |
| `TimerManagement.TimerManager.Cancel` | src/timer.cpp:27-40 | true exactly for a timer still pending, which leaves the set |
| `TimerManagement.TimerManager.Refresh` | src/timer.cpp:49-62 | a pending timer is due one period from now, all else and the flag stay; a timer no longer pending is refused |
| `TimerManagement.TimerManager.Reset` | src/timer.cpp:64-89 | the new period and deadline, the notification and the flag; when nothing is to be done or it is refused |
| `TimerManagement.TimerManager.GetNextTimer` | src/timer.cpp:128-143 | the time to the first deadline; clears the flag |
| `TimerManagement.TimerManager.ReleaseBound` | src/timer.cpp:161-165 | how many timers are released does not depend on the address of the probe timer |
| `TimerManagement.TimerManager.ListExpired` | src/timer.cpp:145-181 | exactly the callbacks of the due timers, in order; what each timer is afterwards; a timer is in the set if and only if its callback is not null |
| `EventTable.CtlAlwaysLegal` | src/iomanager.cpp:104-108 | ADD is legal for a descriptor without events, MOD and DEL for one with events |
| `EventTable.AddKeeps` | src/iomanager.cpp:86-133 | addEvent keeps the mirror, the counter and the contexts, and passes its assertions |
| `EventTable.DelKeeps` | src/iomanager.cpp:136-166 | so does delEvent |
| `EventTable.CancelKeeps` | src/iomanager.cpp:167-195 | so does cancelEvent, which moves the waiter's handle to the queue; it succeeds exactly for a set event when the kernel agrees |
| `EventTable.CancelAllKeeps` | src/iomanager.cpp:197-231 | so does cancelAll, after which the descriptor has no events |
| `EventTable.ReportsKeep` | src/iomanager.cpp:295-338 | so does an idle pass over everything the kernel delivered, error and hang-up included; every handle that leaves the table is in the queue |
| `EventTable.GrowKeeps` | src/iomanager.cpp:13-23 | growing the table makes room and changes nothing else |
| `EventEffects.AddWritten` | src/iomanager.cpp:86-133 | after a successful addEvent the event is watched with EPOLLET, its context holds the waiter, one more is pending, and nothing else changed but the room |
| `EventEffects.AddRefusedWritten` | src/iomanager.cpp:109-114 | a refused addEvent changes nothing but the room |
| `EventEffects.DelWritten` | src/iomanager.cpp:146-165 | after delEvent the event is not watched and its context is empty, one less is pending, nobody is queued, nothing else changed |
| `EventEffects.CancelWritten` | src/iomanager.cpp:177-194 | after a successful cancelEvent, for reading and writing alike, the same, and the waiter is queued: a fiber or a callback, for any thread |
| `EventEffects.CancelAllWritten` | src/iomanager.cpp:204-230 | after a successful cancelAll all events of the descriptor have ended, the reader queued before the writer |
| `EventEffects.Unchanged` | src/iomanager.cpp:136-217 | delEvent, cancelEvent and cancelAll that are refused, or find no such event, change nothing |
| `EventEffects.ReportWritten` | src/iomanager.cpp:307-337 | one report ends exactly the events it fires: those ready, or all on an error or hang-up |
| `EventEffects.ReportsWritten` | src/iomanager.cpp:295-338 | after a whole delivery exactly the fired events are over, all others are untouched, and the queue grew by exactly their waiters, in the order of the reports and readers first |
| `EventEffects.WaiterDelivered` | src/iomanager.cpp:330-337 | the waiter of a fired event is among these, as a fiber or as a callback |
| `IoManagement.IOManager.AddEvent` | src/iomanager.cpp:86-133 | addEvent in place does what the model says, through its assertions |
| `IoManagement.IOManager.DelEvent` | src/iomanager.cpp:136-166 | delEvent in place |
| `IoManagement.IOManager.CancelEvent` | src/iomanager.cpp:167-195 | cancelEvent in place |
| `IoManagement.IOManager.CancelAll` | src/iomanager.cpp:197-231 | cancelAll in place, through its assertion |
| `IoManagement.IOManager.TriggerEvent` | src/iomanager.cpp:72-84 | the event is cleared and the waiter's handle moved to the queue |
| `IoManagement.IOManager.ContextResize` | src/iomanager.cpp:13-23 | the loop fills the table up with fresh contexts |
| `IoManagement.IOManager.HandleEvents` | src/iomanager.cpp:295-338 | the delivery loop in place |
| `RuntimeSteps.YieldKeeps` | src/fiber.cpp:129-135 | YieldToReady and the re-enqueue keep the invariant |
| `RuntimeSteps.SleepKeeps` | src/hook.cpp:160-172 | a hooked sleep trades running for one pending timer |
| `RuntimeSteps.BlockKeeps` | src/hook.cpp:113-139 | arming the timeout, registering and yielding keep the invariant |
| `RuntimeSteps.RefusedKeeps` | src/hook.cpp:131-137 | when the registration is refused after the timer was armed, the timer is out of the set again, every registration, the epoll set, the counter and the queue are as before, and the call is gone |
| `RuntimeEffects.WhatBlocks` | src/hook.cpp:113-139 | after a successful addEvent the fiber is on hold in exactly that context, its timeout is pending for that long from now, and nothing else changed |
| `RuntimeEffects.WhatSleeps` | src/hook.cpp:160-172 | after a hooked sleep the fiber is on hold and a timer of that length will schedule it |
| `RuntimeEffects.WhatYields` | src/fiber.cpp:129-135 | after YieldToReady the fiber is READY at the end of the queue |
| `RuntimeEffects.WhatEnds` | src/fiber.cpp:169-188 | a fiber ends as TERM or EXCEPT, the callback fiber is reset and kept |
| `RuntimeTheorems.RequestKeepsIff` | src/iomanager.cpp:86-231 | what a running fiber asks of the manager keeps the invariant if and only if it is not a delEvent, obeyed by the kernel, on an event a fiber waits for |
| `RuntimeEffects.WhatBeginsAndReturns` | src/hook.cpp:105-151 | a hooked call begins with a fresh `timer_info` and returns with none |
| `RuntimeEffects.WhatTableCalls` | src/iomanager.cpp:86-231 | what a running fiber asks of the table, event by event: a watched event is registered with its callback, a forgotten one wakes nobody, a cancelled one wakes its waiter, a refused request changes nothing but the room |
| `RuntimeEffects.WhatOthersTime` | src/timer.cpp:113-119 | another thread's timer is due its period from now |
| `RuntimeEffects.WhatSchedules` | include/schedular.h:82-90 | a callback or a new fiber goes to the end of the queue for the thread asked for |
| `RuntimeEffects.WhatTimerCalls` | src/timer.cpp:27-119 | starting, stopping, refreshing and resetting a user's timer, field by field, with all others as before |
| `RuntimeTurns.ResumedKeeps` | src/hook.cpp:140-147 | resuming a queued fiber keeps the whole invariant |
| `RuntimeEffects.WhatResumes` | src/hook.cpp:140-258 | a taken fiber runs; its round's timer is gone; do_io that was not cancelled goes back to its retry, and a cancelled one and connect return, their call gone; other fibers, calls, timers and events are as before |
| `RuntimeEffects.WhatRuns` | src/schedular.cpp:161-181 | a user's callback runs on the recycled callback fiber, or on a new one if there is none |
| `RuntimeEffects.WhatWakes` | src/hook.cpp:160-172 | a sleep that is over puts the sleeper at the end of the queue |
| `RuntimeEffects.WhatTimesOut` | src/hook.cpp:121-128 | a timeout of a live call sets ETIMEDOUT; if the fiber is still registered and the kernel agrees, its registration ends and it is queued |
| `RuntimeEffects.TimeoutWakes` | src/hook.cpp:121-128 | so an unrefused timeout leaves the call's own fiber in the queue and off its context, for reading and writing alike |
| `RuntimeEffects.CancelWakes` | src/iomanager.cpp:167-231 | a fiber whose event or descriptor is cancelled is queued and off its context |
| `RuntimeTurns.TakeTimeout` | src/hook.cpp:121-128 | running a timeout closure on the recycled callback fiber keeps the invariant |
| `RuntimeTurns.HandleKeeps` | src/iomanager.cpp:289-344 | an idle pass, timers first and events after, keeps the invariant |
| `RuntimeEffects.WhatIdleQueues` | src/iomanager.cpp:289-338 | an idle pass adds exactly the callbacks of the due timers, by deadline and address, and then exactly the waiters of the reported events; those events are over, all others untouched |
| `RuntimeEffects.WhatIdleKeeps` | src/timer.cpp:145-181 | of the due timers exactly the recurring stay, one period after the reading |
| `RuntimeEffects.ReadinessWakes` | src/iomanager.cpp:330-337 | a fiber waiting for an event that is reported ready, or whose descriptor has an error or hang-up, is off its context and in the queue |
| `RuntimeEffects.WhatIdleTests` | src/iomanager.cpp:237-273 | the idle fiber ends exactly when stop was asked for and no timer, event or task is left |
| `RuntimeEffects.WhatNoTaskMeans` | src/schedular.cpp:182-192 | the worker finds nothing exactly when every task is pinned to another thread or executing; then it leaves if its idle fiber has ended, and else runs it |
| `RuntimeTurns.StoppingMeansQuiet` | src/iomanager.cpp:237-243 | the stop test passes only with no timer, no event and no task |
| `RuntimeTurns.NoneIsNone` | src/timer.cpp:128-136 | with the timers of a reachable state, "none" is answered only when there is none |
| `RuntimeTheorems.RunKeeps` | src/schedular.cpp:103-201 | every run keeps the invariant |
| `RuntimeTheorems.SingleWakeToken` | src/hook.cpp:116-172 | in every reachable state an unfinished fiber is in exactly one place: running, one queue entry, one event context, one sleep timer or its queued callback; a finished one in none |
| `RuntimeTheorems.PlaceOfCont` | src/hook.cpp:116-172 | which of these places it is, by where the fiber is suspended |
| `RuntimeTheorems.CompleteDrain` | src/schedular.cpp:185-189 | when `run` leaves its loop every fiber is TERM or EXCEPT (the recycled callback fiber: reset after its callback ended), and queue, timers, registrations and live calls are empty |
| `RuntimeTheorems.LeavesWhenDrained` | src/schedular.cpp:182-199 | conversely, once stop was asked for and nothing is left, the worker leaves after at most one more stop test |
| `RuntimeTheorems.SomeRunLeaves` | src/schedular.cpp:185-189 | some run leaves its loop |
| `RuntimeExample.SomeRunDrains` | src/schedular.cpp:185-189 | so does a run in which a fiber waited, timed out, returned and ended |
| `RuntimeTheorems.KernelMirror` | src/iomanager.cpp:104-337 | a descriptor is in the epoll set if and only if it has events, with EPOLLET and those events |
| `RuntimeTheorems.PendingConservation` | src/iomanager.cpp:116-131 | the pending counter is the number of set bits; a bit is set if and only if its context has a scheduler and exactly one of fiber and callback |
| `RuntimeTheorems.AssertionsUnreachable` | src/fiber.cpp:91-151 | no run fails an assertion on event bits, contexts, queue entries or fiber states, or makes a control request of the wrong kind |
| `RuntimeTheorems.CleanReturn` | src/hook.cpp:105-151 | a call that has returned has no registration, no pending timer and no queued timeout left |
| `RuntimeTheorems.TimedOutMeansElapsed` | src/hook.cpp:119-146 | a call is cancelled only with ETIMEDOUT and only when its round has lasted the timeout, or a rollover was reported since that round began |
| `RuntimeTheorems.ForgetIff` | src/iomanager.cpp:136-166 | after delEvent every unfinished fiber still has its place if and only if no fiber waited there |
| `RuntimeExample.DelEventLosesAFiber` | src/iomanager.cpp:136-166 | a reachable state in which delEvent leaves an unfinished fiber in no place at all |
| `RuntimeRounds.WhatEndsARound` | src/hook.cpp:119-147 | for every step: a fiber is registered only by blocking itself, and stops being registered only by readiness, its own round's timeout (which has passed, unless a rollover was reported since the round began), or a cancel of that event or descriptor |
| `RuntimeRounds.RoundEndsOnce` | src/hook.cpp:119-147 | while a wait round lasts its registration is ended as often as it is gone: at most once, and it is never made again |
| `RuntimeRounds.ResumedExactlyOnce` | src/hook.cpp:130-147 | from suspension until the worker takes the fiber again the registration is ended exactly once |
| `RuntimeExample.SomeCallTimesOut` | src/hook.cpp:105-151 | some run registers a fiber, lets its timeout pass, cancels the call and returns from it |
| `RuntimeTimers.PassReleases` | src/iomanager.cpp:289-294 | the runtime's timers are the manager's set: an idle pass, also over an empty set, queues exactly the callbacks of the released timers in set order before the events are handled, keeps the rest, and records the reading |
| `RuntimeTimers.ListingUnique` | src/timer.cpp:161-168 | the order of the set leaves only one listing of the due timers |
| `RuntimeTimers.NoNextIsNone` | src/iomanager.cpp:237-241 | the runtime's "no next timer" is getNextTimer's "none" |
| `Scheduler.WorkerAccounting` | src/schedular.cpp:134-199 | in every interleaving the active count is the number of workers between dequeue and decrement, the idle count the number in the idle fiber |
| `Scheduler.ExitSafety` | src/schedular.cpp:114-200 | with no outside scheduling after stop, once all workers have left no unpinned task is queued |
| `Scheduler.EmptyAfterExit` | src/schedular.cpp:114-200 | if no task is ever pinned, the queue is empty then |
| `SchedulerTasks.TasksConserved` | src/schedular.cpp:118-181 | in every interleaving what was scheduled or put back is queued, held by a worker, or was dispatched, as often |
| `SchedulerTasks.EachDispatchedOnce` | src/schedular.cpp:118-181 | when all workers have left every unpinned task was dispatched exactly as often as it was scheduled or put back |
| `Scheduler.ScanMisses` | src/schedular.cpp:129-133 | a scan that takes nothing although an unpinned task is queued leaves another worker alert |
| `Scheduler.IdleEndsIff` | src/schedular.cpp:182-199 | the idle fiber ends exactly when stop was asked for, the queue is empty and no worker holds a task or runs a fiber |
| `SchedulerEffects.ScanTakes` | src/schedular.cpp:118-147 | with any number of workers too, a scan takes the first task neither pinned to another thread nor executing, and nothing exactly when there is none |
| `SchedulerEffects.GoesIdle` | src/schedular.cpp:182-199 | a worker that found nothing leaves if its idle fiber has ended, else runs it and scans again when it yields |
| `SchedulerPinned.PinnedTaskCanRemain` | src/schedular.cpp:123-126 | for every task pinned to a thread there is a run in which all workers, one of them of that thread, leave and the task stays |
| `SchedulerPinned.RemainsIff` | src/schedular.cpp:114-200 | some run in which all workers leave has a task still queued if and only if the task is pinned to a thread |
| `SchedulerHandles.OneWorkerPerFiber` | src/schedular.cpp:148-181 | if no fiber is scheduled while its handle is queued or with a worker (scheduling a running fiber, by itself or by others, is allowed once, if it then holds or ends), no two workers run one fiber, and the assertions of swapIn and reset hold |
| `SchedulerHandles.RunningIsPassedOver` | src/schedular.cpp:130-133 | a fiber scheduled while it runs is passed over by every worker's scan |
| `SchedulerHandles.FinishedStays` | src/schedular.cpp:148-160 | a fiber that ended never runs again |
| `SchedulerHandles.YieldedIsKept` | src/schedular.cpp:148-160 | while a fiber is READY it is queued or with a worker |
| `SchedulerEffects.DispatchRuns` | src/schedular.cpp:148-169 | what a worker took it runs, on the task's fiber or its own callback fiber, which nobody else runs; only a fiber that has ended is dropped |
| `SchedulerEffects.ComesOut` | src/schedular.cpp:150-180 | the state a fiber comes out with; one that yielded is at the end of the queue after the worker's next step, whatever the others did in between |
| `Ipv6Text.Insert` | src/address.cpp:462-496 | the printer's loop writes the groups with the first run of zeros as `::`, in brackets, then the port |
| `Ipv6Text.RoundTrip` | src/address.cpp:462-493 | reading the text of any address by section 2.2 of RFC 4291 gives the same eight groups |
| `Ipv6Text.OneGap` | src/address.cpp:472-493 | the text has a `::` if and only if some group is zero, and then only one |
| `Ipv6Recommended.RecommendedIff` | src/address.cpp:64-74 | the printed text has the first longest run, and no single zero group, compressed if and only if there is no zero group or the first run has two or more and no run is longer |
| `Ipv6Recommended.ShorterRunCompressed` | src/address.cpp:472-489 | an address whose single zero group is compressed before a longer run |
| `Ipv6Text.DifferentTexts` | src/address.cpp:462-496 | different addresses have different texts |
| `Ipv6Text.NumeralValue` | src/address.cpp:487-494 | a printed number reads as the number printed |
| `Ipv6Text.NumeralShape` | src/address.cpp:487-494 | a printed number has lower-case digits and no needless zero in front |
| `HostSplit.Split` | src/address.cpp:75-108 | the node and the service the three steps arrive at, for every host text |
| `HostSplit.BracketedWithService` | src/address.cpp:75-87 | `[node]:service` gives exactly both |
| `HostSplit.BracketedAlone` | src/address.cpp:75-87 | `[node]` gives the node and no service |
| `HostSplit.BracketedThen` | src/address.cpp:75-87 | anything but a colon behind the closing bracket is ignored |
| `HostSplit.UnbracketedWritten` | src/address.cpp:91-108 | every other text with a colon: what node and service become |
| `HostSplit.UnbracketedAlone` | src/address.cpp:91-108 | without a colon the whole text is the node |
| `HostSplit.PlainWithService` | src/address.cpp:91-98 | `node:service` without further colons gives exactly both |
| `HostSplit.UnbracketedIff` | src/address.cpp:91-108 | a text not in brackets is split as intended if and only if it has at most one colon, not in front |
| `HostSplit.UnbracketedGoesWrong` | src/address.cpp:91-108 | a host whose first colon is left behind as the service |
| `HostSplit.PrintedSplits` | src/address.cpp:462-496 | splitting a printed address gives text that reads as its eight groups, and its port |
| `PrefixMasks.CountBytes` | src/address.cpp:18-26 | the loop counts the set bits |
| `PrefixMasks.CountAddress` | src/address.cpp:175-178 | the sum over sixteen bytes; for a subnet mask, the prefix length |
| `BitMath.ClearLowest` | src/address.cpp:22-24 | `v & (v - 1)` is smaller and has one set bit less |
| `PrefixMasks.Masks4` | src/address.cpp:375-404 | IPv4: broadcast keeps the first p bits and sets the rest, network clears the rest, the mask is the first p bits |
| `PrefixMasks.BroadcastOffset` | src/address.cpp:375-396 | IPv4 broadcast is network plus 2^(32-p) - 1 |
| `PrefixMasks.SubnetOnes4` | src/address.cpp:398-404 | counting the bits of the IPv4 subnet mask gives p |
| `PrefixMasks.BroadcastAddress` | src/address.cpp:498-507 | the IPv6 loop in place |
| `PrefixMasks.Broadcast6Bits` | src/address.cpp:498-507 | IPv6 broadcast keeps the first p bits and sets the rest |
| `PrefixMasks.NetworkAddress` | src/address.cpp:509-518 | the IPv6 loop in place |
| `PrefixMasks.Network6Iff` | src/address.cpp:509-518 | it clears everything after the first p bits if and only if the address has nothing past the byte the prefix ends in |
| `PrefixMasks.Network6GoesWrong` | src/address.cpp:509-518 | an address whose network address of prefix 0 is not zero |
| `PrefixMasks.SubnetMask` | src/address.cpp:519-532 | the IPv6 loop in place |
| `PrefixMasks.Subnet6Bits` | src/address.cpp:519-532 | the mask is the first p bits |
| `PrefixMasks.SubnetOnes6` | src/address.cpp:519-532 | counting the bits of the IPv6 subnet mask gives p |
| `LogPattern.LogFormatter.Init` | src/qlc_log.cpp:421-545 | both loops, for every pattern: one item for each piece, of the piece's own key and format or text; an unknown key gives the item `error format` and its name, and sets the error |
| `LogPattern.ItemsWritten` | src/qlc_log.cpp:504-544 | which item each piece becomes, with the twelve keys written out |
| `LogPattern.FormatsBack` | src/qlc_log.cpp:421-545 | a formatter on the print of canonical triples has exactly their items, each with its own format, and no error |
| `LogPattern.ScanDirective` | src/qlc_log.cpp:441-477 | the inner loop: one item from its `%`, or a brace left open |
| `LogPattern.PlainWritten` | src/qlc_log.cpp:441-477 | the key is the letters and closing braces after `%`; without an opening brace the item ends there and has no format |
| `LogPattern.BracedWritten` | src/qlc_log.cpp:460-477 | with one the format is what stands before the first closing brace, with which the item ends; without that it is an error |
| `LogPattern.Lossless` | src/qlc_log.cpp:421-500 | if the scan reports no error, printing the triples gives the pattern back up to empty braces, and the very pattern if and only if the key of no item in the text is followed by `{}` |
| `LogPattern.SpareIsEmpty` | src/qlc_log.cpp:441-477 | the items written with empty braces are exactly those whose key is followed by `{}` in the text |
| `LogPattern.NoEmptyBraces` | src/qlc_log.cpp:421-500 | a pattern without `{}` in it is printed back as it was |
| `LogPattern.EmptyBracesAreLost` | src/qlc_log.cpp:460-467 | a pattern whose empty braces are lost |
| `LogPattern.ParsesBack` | src/qlc_log.cpp:421-500 | printing canonical triples and parsing gives them back without error |

## Left out

- The real epoll, pipe, ucontext, pthread, dlsym, gettimeofday, getaddrinfo and YAML calls: foreign. Epoll is a map, the clock an input, a context switch a change of state.
- `do_io` and `connect_with_timeout` as methods with loops: a method cannot be suspended in the middle, so their labels are continuations of the runtime machine; early returns before the first attempt (hook off, not a socket, non-blocking) touch nothing and are left out. So are the results of the underlying system calls.
- The `Fiber` class as an object: its transitions (reset, swapIn, yield, end) are changes of a state map in the two machines, where their assertions are proved; stacks, reference counts and the destructor's assertions are not modelled.
- `Schedular::run` as one loop: it is cut into the steps of the two machines, because other workers and fibers act between them.
- Hooked I/O with several workers: a timer can fire between arming and registering (src/hook.cpp:121-130) and fiber states are written outside the lock; the theorems about hooked calls are for one worker.
- `stop()` beyond its two flags: joining threads, and running the loop on the calling thread.
- 64-bit wrap-around of deadlines: sums are assumed to fit; shared pointers reused for a new timer at an old address are not modelled.
- The tickle pipe and how long epoll_wait waits (src/iomanager.cpp:274-288): a wake-up may come at any time.
- A second thread growing the table at once (src/iomanager.cpp:94-96), and the gap between the two locks of listExpiredCb (src/timer.cpp:150-156): both are one step.
- Closing a registered descriptor without cancelAll, and two waiters for one event: the code does not support them.
- Calls of other threads into the one-worker manager beyond scheduling and adding timers: a cancelEvent from outside between two queue entries can let a timeout outlive its round, so what is said about rounds is about calls of the worker's own fibers.
- Starvation: nothing is said about when a queued fiber runs.
- IPv4 prefix length 0 and IPv6 prefix length 128: a shift by the full width, and an index past the array.
- IPv4 text, `Address::operator==`, `IPv6Address::Create`, the socket classes, configuration, loggers and appenders, threads, mutexes and the descriptor manager: plumbing or easy lookups.
