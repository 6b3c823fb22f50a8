# Verification of the kernel's core

The kernel is TOPPERS/ASP3, a real-time kernel of the μITRON4.0 family.  This
project models four of its cores and some satellites, in the form the code has
them (fields updated in place, loops, links between control blocks), and proves
that they do what they are for.  `dafny verify dfyconfig.toml` checks all of it.

**Time events** (`EventTime`, `HeapOrder`, `TimeEventHeap`, `EventClock`, `Firings`,
`TimeManager`). The registers are 32 bits wide and wrap around; ghost fields hold
the unbounded times they stand for. The binary heap with its back pointers is
ordered by a comparison relative to a moving boundary. It is proved that this
comparison is the order of the true times, that the timer is never armed late nor
further ahead than HRTCNT_BOUND, that the 64-bit system time never goes back, that
an adjustment stays within its bounds, and that the timer handler fires every event
exactly as often as it should, in order and without drift, although cyclic events
register themselves again while it runs.

**Tasks, waits and mutexes.** `KernelState` and `KernelCalls` describe the kernel by
definitions instead of bookkeeping: the current priority *is* the minimum of the
base priority and the ceilings, the task to be scheduled *is* the head of the first
non-empty queue. Each service call is one step, as the CPU is locked while it runs.
`KernelPlacement`, `KernelInvariant`, `KernelLocking`, `KernelSteps` and
`KernelRuns` prove what every step keeps and what therefore holds in every state a
run can reach. `KernelDeltas`, `KernelEffects` and `KernelModes` say on the fields
alone, without the functions the steps are made of, what every call and event
answers and does; `KernelLaws`, `KernelHistory` and `KernelOrder` derive from that
what the calls are for: no wake-up or activation is lost or counts twice over a run,
waits end for one reason and with its result, those who wait are served in the order
in which they came or by priority, and nobody overtakes in a ready queue. The class
`Kernel.Kernel` (with `Primap`, `ReadyTop`, `MutexChain`) does what the code does: a
priority bitmap with a table search, a task to be scheduled that is kept up to date
by comparisons, priorities changed only where needed, mutexes on chains linked
through their control blocks. The timeout pointer of a task stays set when its wait
ends, as in the code; that the timer has the block exactly during the wait is a rule
for reachable states, so that the kernel's calls meet what `TimeEvents.Enqueue` and
`TimeEvents.Dequeue` demand. Every method is proved to have exactly the effect of
its step, so that all rules for reachable states hold of the code's runs; the
assertions in the code are proved on the way.

**Containers.**  `DataQueue`, `PriDataQueue`, `MemoryPool`, `EventFlag`,
`Semaphore`, each a class with the fields of its control block (`Ring`,
`BlockList`, `Senders`, `Bits` hold what they share).  A wait that ends early and a
change of a waiting task's priority are operations of each.

**Satellites.**  `SerialPort`: two ring buffers with binary semaphores as tokens;
the methods are the atomic steps of tasks and callbacks and may come in any order,
waits that are cut short and changes of the settings included.
`SysLog`: an overwriting ring with a 32-bit counter of losses.  `FrameDecoder`: the
resynchronising decoder of the robot's serial protocol, and both encoders.
`QueueRing`: the circular doubly linked queue, on objects, as a sequence; the other
modules use sequences.

Where the code does not meet a property, the exact condition is proved:

- A reader of the serial port that waits to echo holds the receive token as long as
  there are characters left.  If that wait is cut short, the token is lost, and no
  step that may follow lets anybody read until the port is closed
  (`SerialPort.LoseToken`, `SerialPort.SerialPort.Execute`).  With IOCTL_ECHO off no
  interleaving loses it (`SerialPort.RunWithoutEcho`).
- `makeCommand` takes the low bits of a negative value in two's complement, which
  the receiver takes for a magnitude (`FrameDecoder.MakeCommandRoundTrip`).  The code
  calls it with the value 0 only.
- The result of a log read is the number of lost records only below 2^31
  (`SysLog.SysLog.Read`, `SysLog.CountOverflows`).
- A forced send to a full data queue puts its datum ahead of those of the tasks that
  were waiting to send (`DataQueue.OverflowDropsOldest`).
- Locking and unlocking a ceiling mutex while dispatching is not possible may move
  the running task to the front of its ready queue (`KernelRuns.LockUnlock`,
  `KernelRuns.LockUnlockReorders`).

Assumptions about the environment, stated as preconditions: less than one cycle of
the timer elapses between two readings of it, and no pending event is left more than
BOUNDARY_MARGIN late (`TimeManager.TimeEvents.ReadInTime`; for the two readings of a
restart of a handler both are counted from the start of the call); the semaphores of
the serial driver start at 1 and 0.

## Model

| member | source | states |
|---|---|---|
| EventTime.OrderAgrees | kernel/time_event.c:89-97 | while the true times lie in one 2^32 window that starts at the boundary, EVTTIM_LE and EVTTIM_LT on the wrapped 32-bit times hold exactly when the unbounded times are so ordered, wherever the boundary is |
| EventTime.ElapsedFromCounts | kernel/time_event.c:361-366 | two readings of a counter that runs modulo any cycle up to 2^32 give back the counts elapsed between them, whether or not it went round, provided that less than one cycle elapsed |
| EventTime.OffsetFollows | kernel/time_event.c:374-381 | when the 32-bit monotonic time moves forward it has gone round exactly if its new value is the smaller one, and adding 2^32 to the 64-bit offset then keeps offset + register equal, modulo 2^64, to the unbounded time |
| EventTime.Remaining | kernel/time_event.c:411-421 | the registers alone tell whether a pending event is due, and otherwise how far ahead it is |
| EventClock.Clock.constructor | kernel/time_event.c:135-143 | the registers start at event time 0, with system time 0 |
| EventClock.Clock.ReadCounter | kernel/time_event.c:361-366 | the advance computed from the counter equals the counts elapsed |
| EventClock.Clock.Forward | kernel/time_event.c:368-382 | the event time advances, the monotonic time becomes the maximum reached so far, and the registers stay the wrapped unbounded times |
| EventClock.Clock.Update | kernel/time_event.c:357-383 | one clock update moves event time and timer count by the elapsed counts and monotonic time to the maximum; system time is not set |
| EventClock.Clock.Back | kernel/time_manage.c:164-166 | a step back moves the event time and not the monotonic time |
| EventClock.Clock.CurrentUb | kernel/time_event.c:393-396 | the current time rounded up by one timer step, wrapped |
| EventClock.Clock.SetOffset | kernel/time_manage.c:104-107 | system time becomes the time that is set |
| EventClock.Clock.GetTime | kernel/time_manage.c:130-133 | the 64-bit result is the unbounded system time modulo 2^64 |
| HeapOrder.RootIsLeast | kernel/time_event.c:76-82 | with every parent at most its children, node 1 holds the least time of all nodes |
| TimeEventHeap.EventHeap.TmevtUp | kernel/time_event.c:158-184 | the empty node is moved up to a place where the given event may be put: every block keeps its back pointer, the heap is ordered around the empty node, and the event is due no earlier than the parent and no later than the children of it |
| TimeEventHeap.EventHeap.TmevtDown | kernel/time_event.c:198-234 | the same downwards, the earlier child moving up |
| TimeEventHeap.EventHeap.Insert | kernel/time_event.c:245-259 | the heap stays ordered, back pointers stay exact, and the registered blocks and times change by exactly the new one; if it is not at the top, the top is as before |
| TimeEventHeap.EventHeap.Delete | kernel/time_event.c:265-316 | any block can be taken out, the last one included, whether the replacing block moves up or down: order and back pointers are kept, exactly this block is gone, and the top changes only if it was there |
| TimeEventHeap.EventHeap.DeleteTop | kernel/time_event.c:322-349 | the earliest block is taken out, order and back pointers are kept, and exactly this block is gone |
| TimeEventHeap.EventHeap.TopIsEarliest | kernel/time_event.c:80-82 | the heap is empty exactly if nothing is registered, and otherwise the top is registered and due no later than any other block |
| TimeManager.TimeEvents.UpdateCurrentEvttim | kernel/time_event.c:357-383 | a clock update keeps all pending events in one window of the 32-bit comparison and a timer that was armed in time armed in time |
| TimeManager.TimeEvents.SetHrtEvent | kernel/time_event.c:404-423 | afterwards the timer interrupt is raised or comes no later than any pending event is due; it is raised exactly if an event is due already; no arming is ever more than HRTCNT_BOUND counts ahead, which every operation keeps |
| TimeManager.TimeEvents.Register | kernel/time_event.c:433-441 | a stamped block joins the pending events at its time |
| TimeManager.TimeEvents.Enqueue | kernel/time_event.c:447-467 | a block that is not registered becomes due at the rounded-up current time plus the relative time, and the timer stays armed in time although it is set anew only for a new top |
| TimeManager.TimeEvents.Dequeue | kernel/time_event.c:477-494 | exactly this block, which must be registered, is unregistered, and the timer stays armed in time although it is set anew only if the top went |
| TimeManager.TimeEvents.CheckAdjtim | kernel/time_event.c:504-514 | a step forward is accepted exactly if no pending event is 1,000,000 or more late, a step back exactly if the lead of the monotonic time is below 1,000,000 |
| TimeManager.TimeEvents.LeftTime | kernel/time_event.c:524-547 | the time left until the block expires, 0 once it has passed |
| TimeManager.TimeEvents.SetTim | kernel/time_manage.c:97-113 | system time becomes the time that is set, whatever the registers held |
| TimeManager.TimeEvents.GetTim | kernel/time_manage.c:123-139 | the result is the unbounded system time modulo 2^64, and that time never goes back, across wrap-arounds and adjustments |
| TimeManager.TimeEvents.AdjTim | kernel/time_manage.c:149-186 | which requests are accepted and which refused, both ways; if accepted, the event time moves by exactly the adjustment, system time never goes back, the monotonic lead stays under 2,000,000, a forward step leaves no event 2,000,000 or more late, and the timer is armed in time |
| TimeManager.TimeEvents.StartUp | kernel/cyclic.c:128-162 | exactly the self-starting cyclic handlers are registered, at their phases, and the timer is armed in time |
| TimeManager.TimeEvents.StartHandler | kernel/cyclic.c:289-321 | a cyclic handler, or likewise an alarm, is started or restarted, also if the timer advances between the two readings of a restart: its flag is up and its block due at the new time, nothing else changed |
| TimeManager.TimeEvents.StopHandler | kernel/alarm.c:303-329 | an alarm, or likewise a cyclic handler, is stopped: flag down and block unregistered; no change if it was stopped |
| TimeManager.TimeEvents.Callback | kernel/cyclic.c:406-426 | a cyclic block is registered again one period after the time it was due, not after the current time; an alarm is stopped |
| TimeManager.TimeEvents.FireExpired | kernel/time_event.c:574-591 | the inner loop ends although cyclic events register themselves again; events fire in order of time, every block exactly as often as it should, and nothing expired remains |
| TimeManager.TimeEvents.Pass | kernel/time_event.c:565-593 | one reading of the timer followed by the firing of all that has expired; passes compose |
| TimeManager.TimeEvents.SignalTime | kernel/time_event.c:557-601 | a run of the handler, for any sequence of timer readings: what has fired, in order and without drift, is what the pending events at its start demanded, no expired event is left, it ends as soon as a pass takes no time, and the timer is then armed in time |
| TimeManager.TimeEvents.BeginSignal | kernel/time_event.c:567-568 | while the handler runs no call arms the timer |
| TimeManager.TimeEvents.StartPass | kernel/time_event.c:570-600 | a pass starts with a reading of the timer; the handler ends there exactly if nothing has expired, and the timer is then armed in time |
| TimeManager.TimeEvents.FireNext | kernel/time_event.c:586-591 | whatever other calls registered, cancelled or adjusted since the callback before, the earliest event is fired exactly if it has expired, and everything stays in order |
| Firings.CyclicFiresExactly | kernel/cyclic.c:400-412 | a cyclic block that was due at `first` fires its k-th time, at first + k * period, exactly if that time has come: no drift and no firing missed |
| Firings.DrainIsDetermined | kernel/time_event.c:565-593 | the firings of every block and its next due time depend only on the pending times and the current time, not on how the heap orders equal times |
| Firings.DrainCompose | kernel/time_event.c:565-593 | draining up to one time and then up to a later one is draining up to the later one |
| Firings.BacklogShrinks | kernel/time_event.c:586-591 | the sum over the pending events of max(0, now + 1 - time) decreases with every firing |
| Firings.OthersFireOnce | kernel/alarm.c:378-397 | a block that is not cyclic fires once, at the time it was due, if that has come, and is then pending no longer |
| QueueRing.InsertPrev | include/queue.h:90-96 | the ring of linked entries that stood for a sequence stands for the sequence with the entry inserted before the given one, at the end if that is the header |
| QueueRing.InsertNext | include/queue.h:105-111 | likewise after the given one |
| QueueRing.Delete | include/queue.h:119-123 | likewise without the entry, wherever it is |
| QueueRing.DeleteNext | include/queue.h:134-143 | the first entry is returned and gone |
| QueueRing.Empty | include/queue.h:151-158 | true exactly for the header alone; its assertion holds |
| Queues.InsertTpriPlace | kernel/wait.h:61-74 | insertion by priority puts the task behind all of its priority or higher and before all of lower priority, the others keep their order |
| Queues.InsertTpriOrdered | kernel/wait.h:61-74 | a queue in priority order stays in priority order |
| KernelPlacement.EnwaitPlaced | kernel/wait.c:140-149 | inserting a waiting task keeps every task linked exactly where it belongs and priority queues sorted |
| KernelInvariant.ChangePriorityPlaced | kernel/task.c:339-386 | a priority change keeps every task linked exactly where it belongs and re-sorts priority-ordered wait queues |
| KernelInvariant.EndWaitsCore | kernel/wait.c:186-196 | draining a wait queue keeps placement, the ceiling rule and the locking rule |
| KernelLocking.HandOverCore | kernel/mutex.c:308-334 | handing a mutex to its first waiter keeps placement, the ceiling rule and the locking rule |
| KernelLocking.TerminateCore | kernel/task.c:422-439 | ending a task, with all its mutexes handed over and a queued activation carried out, keeps placement, the ceiling rule and the locking rule |
| KernelSteps.AcquireKeepsRunning | kernel/mutex.c:495-501 | locking a mutex never calls for a dispatch: the assertion made there holds |
| KernelSteps.NewBase | kernel/task_manage.c:445-455 | if a ceiling mutex is locked the new base priority leaves the current one as it must be, and otherwise the current one must become the new base: chg_pri may skip the update exactly then |
| KernelSteps.TimeOutEndsWait | kernel/wait.c:94-131 | when the timer has taken a block out and calls back, its task is in a timed wait, and the callback, which unregisters nothing, ends it as any other end of a wait does |
| KernelSteps.StepInv | kernel/task.h:253-306 | every call and interrupt event keeps the whole invariant: placement, registered timeouts, ceiling rule, locking rule, termination requests, running task |
| KernelSteps.RunInv | kernel/task.h:253-276 | the invariant holds throughout every run of calls and interrupts |
| KernelSteps.BoostedIsMinimum | kernel/mutex.c:246-260 | the computed priority is the minimum of the base priority and the ceilings of the locked ceiling mutexes |
| KernelSteps.CeilingRule | kernel/mutex.c:182-352 | in every reachable state the current priority of a task is that minimum, and its base priority is never above the ceiling of a mutex it has locked or waits for |
| KernelRuns.PlacementRule | kernel/wait.h:61-156 | in every reachable state a runnable task is once in the ready queue of its priority, an object-waiting task once in that queue, no task anywhere else; priority queues are sorted; a timeout block is registered with the timer if and only if its task is in a timed wait |
| KernelRuns.LockRule | kernel/mutex.c:289-352 | in every reachable state a mutex is on at most one chain and there once, and one with waiting tasks is locked by another task |
| KernelRuns.TerminationRule | kernel/task_term.c:165-270 | in every reachable state a task with a termination request is runnable, and has termination disabled unless it is running while dispatching is not possible |
| KernelRuns.RequestTakesEffect | kernel/task_term.c:248-270 | in every reachable state the running task with a termination request ends in exactly that call about itself which leaves termination enabled and dispatching possible, or in ext_tsk |
| KernelRuns.RequestStays | kernel/task_term.c:165-335 | in every reachable state every call and interrupt event keeps a pending termination request of any task, except exactly for the call of its own that lets it end and a ter_tsk by another task |
| KernelRuns.DispatchRule | kernel/task.h:266-276 | in every reachable state in task context with dispatching possible the running task has the highest priority of the runnable ones, and one is missing only if none is runnable |
| KernelRuns.LockUnlock | kernel/mutex.c:527-669 | locking a free mutex and unlocking it leaves the whole state as it was, except that while dispatching is not possible a task whose priority was raised in between comes to the front of its ready queue |
| KernelRuns.LockUnlockReorders | kernel/mutex.c:527-669 | a run from the start after which locking and unlocking takes the other task of the same priority out of first place |
| KernelDeltas.EndWaitsOrder | kernel/wait.c:186-196 | those waiting for an object that is initialised become ready in the order of its queue |
| KernelDeltas.HandOverAllOrder | kernel/mutex.c:344-352 | the first waiters for the mutexes of a task that ends become ready in the order in which it gives the mutexes up, the newest first; tasks that do not wait are left alone |
| KernelDeltas.TerminateQueues | kernel/task.c:422-439 | after the end of a task exactly the first waiters for its mutexes have been released and hold them; it has left all queues, is dormant as at the start or, if an activation was queued, ready last of all |
| KernelEffects.StepDeltas | kernel/task.h:253-306 | what every call and interrupt event answers and does to the fields of tasks, locks and queues, in any state in order |
| KernelModes.StepMode | kernel/sys_manage.c:365-381 | only the calls made for it change the dispatching state and the mask, and the running task changes only outside interrupts with dispatching possible |
| KernelLaws.CallEffect | kernel/check.h:143-182 | both, in every reachable state |
| KernelLaws.TaskEffect | kernel/wait.c:94-196 | in every reachable state, for every task and every call or event: whether it has ended, whether its wait has ended and with which result, or what else of it has changed |
| KernelLaws.RefusalChangesNothing | kernel/check.h:143-182 | a call that is not answered E_OK, does not wait and does not end its task leaves the whole state as it was |
| KernelLaws.NoSleepWithRequest | kernel/task_sync.c:163-196 | no wake-up is lost: in no reachable state a task sleeps with a request for a wake-up pending |
| KernelLaws.WakeUpRequest | kernel/task_sync.c:206-252 | wup_tsk is answered E_OBJ for a dormant task, E_QOVR exactly if a request is pending, and else E_OK; then the sleep of the task has ended with E_OK or, if it did not sleep, the request is pending |
| KernelLaws.SleepUsesRequest | kernel/task_sync.c:163-196 | slp_tsk with a request pending is answered E_OK at once and uses it up, without one the task sleeps or, polling, is refused; a termination request comes before both |
| KernelLaws.RequestPending | kernel/task_sync.c:160-253 | a pending request survives every call and event but a slp_tsk of its task that uses it up and the end of its task, and only wup_tsk makes one |
| KernelHistory.WakeUpsAccounted | kernel/task_sync.c:160-253 | over every run: wake-ups accepted = slp_tsk answered at once + sleeps ended with E_OK + requests dropped at the end of the task + the one pending |
| KernelHistory.ActivationRequest | kernel/task_manage.c:262-305 | act_tsk makes a dormant task ready, last in its queue; for any other it is refused exactly if the task takes no queued activation or has one |
| KernelHistory.ActivationPending | kernel/task.c:422-439 | a queued activation survives everything but the end of its task, which starts again just because of it |
| KernelHistory.ActivationsAccounted | kernel/task_manage.c:262-305 | over every run: activations accepted = starts of the task + the one queued |
| KernelOrder.WaiterPlaced | kernel/wait.c:140-181 | when a call ends with its caller waiting for an object, the earlier waiters keep their order; the caller is behind all of them or, in priority order, behind all of its priority or higher and before the others; no other queue changes |
| KernelOrder.QueueByArrival | kernel/wait.c:140-149 | in every reachable state a queue in order of arrival is in the order in which the waits of its tasks began |
| KernelOrder.FirstServed | kernel/wait.h:61-74 | whoever is served, by a call that wakes or by the hand-over of a mutex, has waited longest of all in a queue in order of arrival, and has the highest priority of all in one in priority order |
| KernelOrder.SomebodyServed | kernel/semaphore.c:280-291 | the call that wakes serves somebody if anybody waits |
| KernelOrder.MutexPasses | kernel/mutex.c:637-668 | after unl_mtx exactly the task that was served holds the mutex, and one was if any waited |
| KernelOrder.NobodyOvertakes | kernel/task.c:239-251 | but for rotation and changes of priority at most one task leaves a ready queue in a call, the others keep their order, and those who become ready come behind them |
| KernelOrder.NewPriorityLast | kernel/task.c:339-386 | chg_pri puts a ready task that no ceiling holds up last among its equals, also if its priority stays the same |
| KernelOrder.RaisedFirst | kernel/mutex.c:289-298 | a task raised by the ceiling of a mutex it gets comes first among its new equals; else the ready queues stay |
| KernelOrder.ManyRotations | kernel/task.c:399-412 | rotating n times moves the first n tasks of a queue of any length behind the others, and a full circle restores it |
| KernelOrder.SuspendAndResume | kernel/task_sync.c:350-406 | suspending and resuming a task leaves all tasks, locks and wait queues as they were; a ready task comes last among its equals |
| Primap.BitmapSearch | kernel/task.c:160-174 | the result is the number of the lowest bit set |
| Primap.SetBit | kernel/task.c:200-203 | exactly this bit is set in addition |
| Primap.ClearBit | kernel/task.c:209-212 | exactly this bit is cleared |
| ReadyTop.SchedPut | kernel/task.c:239-251 | after a task is appended to its ready queue, the head of the first non-empty queue is what one comparison with the previous one says |
| ReadyTop.SchedTake | kernel/task.c:266-285 | after a task is taken out, the head is the previous one, or the next in the same queue if it was the head and that is not empty |
| ReadyTop.SchedMove | kernel/task.c:352-372 | after a priority change, the head is what the comparisons of change_priority say; a search is needed only if the head itself was lowered |
| ReadyTop.TopAfterRotate | kernel/task.c:399-411 | rotating a queue changes the head only if its first task was the head |
| MutexChain.BoostedDown | kernel/mutex.c:251-258 | going down the chain from the newest mutex computes the same minimum step by step |
| MutexChain.BoostedWithout | kernel/mutex.c:268-280 | wherever a mutex is in the chain, the priority with it is the smaller of its ceiling and the priority without it |
| MutexChain.ChainCut | kernel/mutex.c:697-705 | redirecting the link to a mutex takes exactly this one out of the chain |
| Kernel.Kernel.constructor | kernel/task.c:93-127 | the kernel starts in the state of the model before start-up |
| Kernel.Kernel.SearchSchedtsk | kernel/task.c:220-226 | the bitmap search finds the head of the highest non-empty queue |
| Kernel.Kernel.MakeRunnable | kernel/task.c:239-251 | the task is appended to its queue; bitmap and task to be scheduled again are what they are defined to be |
| Kernel.Kernel.MakeNonRunnable | kernel/task.c:266-285 | the task is taken out; bitmap and task to be scheduled again are what they are defined to be, and the two assertions hold |
| Kernel.Kernel.ChangePriority | kernel/task.c:339-386 | the effect on priority, ready queues and wait queues is that of the model; bitmap and task to be scheduled stay right |
| Kernel.Kernel.RotateReadyQueue | kernel/task.c:399-412 | the queue is rotated and the task to be scheduled stays right |
| Kernel.Kernel.TaskMakeDormant | kernel/task.c:295-304 | the effect of the model; scheduling data and mutex chains stay right |
| Kernel.Kernel.MakeActive | kernel/task.c:314-320 | the task is runnable and appended to its ready queue |
| Kernel.Kernel.TaskTerminate | kernel/task.c:422-439 | the effect of the model; scheduling data and mutex chains stay right |
| Kernel.Kernel.QueueInsertTpri | kernel/wait.h:61-74 | the loop inserts by priority |
| Kernel.Kernel.WobjChangePriority | kernel/wait.h:258-265 | a priority-ordered queue is re-sorted, any other left alone |
| Kernel.Kernel.MakeNonWait | kernel/wait.h:109-131 | the effect of the model: runnable and queued, or suspended |
| Kernel.Kernel.WaitDequeueWobj | kernel/wait.h:137-142 | the task leaves the object queue it is in, if any |
| Kernel.Kernel.WaitDequeueTmevtb | kernel/wait.h:150-156 | the timeout block leaves the timer if there is one; it is then registered, as unregistering it demands |
| Kernel.Kernel.WaitEnd | kernel/wait.c:80-85 | timeout unregistered, result recorded, wait ended as in the model |
| Kernel.Kernel.MakeWait | kernel/wait.c:56-70 | the running task leaves its ready queue; with a timeout its block, not registered before, is registered |
| Kernel.Kernel.WobjQueueInsert | kernel/wait.c:140-149 | the task is queued in priority or arrival order |
| Kernel.Kernel.StartWait | kernel/wait.c:157-181 | the running task leaves its ready queue and is queued at the object as in the model |
| Kernel.Kernel.InitWaitQueue | kernel/wait.c:186-196 | the loop ends all the waits, first to last, as in the model |
| Kernel.Kernel.Expire | kernel/wait.c:94-131 | both callbacks of a timeout, whose block is out of the timer already, do what the model says |
| Kernel.Kernel.WaitTmout | kernel/time_event.c:586-590 | the block is taken out and its callback made, as in the model |
| Kernel.Kernel.MutexCheckCeilpri | kernel/mutex.c:183-214 | true exactly if the base priority suits all locked ceiling mutexes and the one waited for |
| Kernel.Kernel.MutexScanCeilmtx | kernel/mutex.c:224-236 | true exactly if a ceiling mutex is locked |
| Kernel.Kernel.MutexCalcPriority | kernel/mutex.c:246-260 | the loop down the chain computes the closed form |
| Kernel.Kernel.MutexDropPriority | kernel/mutex.c:268-279 | although it recalculates only if the ceiling equals the current priority, the priority afterwards is the closed form |
| Kernel.Kernel.MutexAcquire | kernel/mutex.c:289-298 | owner, chain and priority are those of the model, the priority being the closed form again |
| Kernel.Kernel.MutexRelease | kernel/mutex.c:308-334 | the mutex is free or with its first waiter, as in the model; chains and owners agree |
| Kernel.Kernel.MutexReleaseAll | kernel/mutex.c:344-352 | the loop ends, and has handed over all mutexes of the task, newest first, as in the model |
| Kernel.Kernel.CutMutex | kernel/mutex.c:697-705 | the search through the places of the links ends, and exactly the given mutex is off the chain |
| Kernel.Kernel.ActTsk | kernel/task_manage.c:262-305 | new state and result are those of the model step |
| Kernel.Kernel.ChgPri | kernel/task_manage.c:412-461 | new state and result are those of the model step |
| Kernel.Kernel.SlpTsk | kernel/task_sync.c:163-196 | new state and result are those of the model step |
| Kernel.Kernel.WupTsk | kernel/task_sync.c:206-252 | new state and result are those of the model step |
| Kernel.Kernel.RelWai | kernel/task_sync.c:303-340 | new state and result are those of the model step |
| Kernel.Kernel.SusTsk | kernel/task_sync.c:350-406 | new state and result are those of the model step |
| Kernel.Kernel.RsmTsk | kernel/task_sync.c:416-458 | new state and result are those of the model step |
| Kernel.Kernel.DlyTsk | kernel/task_sync.c:468-499 | new state and result are those of the model step |
| Kernel.Kernel.ExtTsk | kernel/task_term.c:109-156 | new state and result are those of the model step |
| Kernel.Kernel.RasTer | kernel/task_term.c:166-213 | new state and result are those of the model step |
| Kernel.Kernel.DisTer | kernel/task_term.c:223-238 | new state and result are those of the model step |
| Kernel.Kernel.EnaTer | kernel/task_term.c:248-270 | new state and result are those of the model step |
| Kernel.Kernel.TerTsk | kernel/task_term.c:303-333 | new state and result are those of the model step |
| Kernel.Kernel.Lock | kernel/mutex.c:488-514 | new state and result are those of the model step, and the assertion that no dispatch is needed holds |
| Kernel.Kernel.LocMtx | kernel/mutex.c:576-627 | new state and result are those of the model step |
| Kernel.Kernel.PlocMtx | kernel/mutex.c:528-566 | new state and result are those of the model step |
| Kernel.Kernel.UnlMtx | kernel/mutex.c:637-668 | new state and result are those of the model step |
| Kernel.Kernel.IniMtx | kernel/mutex.c:678-718 | new state and result are those of the model step |
| Kernel.Kernel.RotRdq | kernel/sys_manage.c:164-195 | new state and result are those of the model step |
| Kernel.Kernel.DisDsp | kernel/sys_manage.c:365-381 | new state and result are those of the model step, the task to be scheduled being the running one from then on |
| Kernel.Kernel.EnaDsp | kernel/sys_manage.c:391-423 | new state and result are those of the model step |
| Kernel.Kernel.ChgIpm | kernel/interrupt.c:617-651 | new state and result are those of the model step |
| Kernel.Kernel.WaitObj | kernel/semaphore.c:325-334 | new state and result are those of the model step: the waiting branch common to semaphores, flags, queues and pools |
| Kernel.Kernel.WakeObj | kernel/semaphore.c:280-291 | new state and result are those of the model step: the waking branch common to semaphores, flags, queues and pools |
| Kernel.Kernel.Perform | kernel/check.h:143-182 | every call, made in any state in order, has exactly the effect and result of its model step and leaves the state in order |
| Kernel.Kernel.Execute | kernel/task.h:253-276 | every run of the code from any state in order ends in the state of the run of model steps |
| Kernel.RunFromBoot | kernel/startup.c:100-125 | a run of the code from the start ends in the state that the rules for reachable states speak of |
| Ring.Put | kernel/dataqueue.c:200-208 | writing behind the newest element of a ring appends |
| Ring.Overwrite | kernel/dataqueue.c:218-231 | writing over the oldest element of a full ring drops it and appends |
| Ring.Drop | kernel/dataqueue.c:241-249 | moving the head on drops the oldest element |
| Senders.RepriOrdered | kernel/wait.h:258-265 | a priority change keeps a priority-ordered queue of waiting tasks in order |
| Senders.InsertPlace | kernel/wait.c:140-149 | a waiting task comes last in a queue in order of arrival, and else behind those of its priority or higher and before the others |
| Senders.RepriPlace | kernel/wait.h:258-265 | with a new priority a task is behind those of that priority or higher and before the others, or in its old place in order of arrival; nothing else changes |
| DataQueue.StepValid | kernel/dataqueue.c:199-332 | waiting senders mean a full buffer, waiting receivers an empty one, and there are never both, for any capacity including 0; senders queue in the order of their priorities if so configured, also when priorities change |
| DataQueue.FirstSender | kernel/dataqueue.c:308-332 | in a queue in priority order a receive lets a waiting sender of the highest priority go on |
| DataQueue.FifoStep | kernel/dataqueue.c:199-332 | buffer and waiting senders form one sequence: a send appends to it and a receive takes its first element |
| DataQueue.FifoRun | kernel/dataqueue.c:199-332 | over any run of sends, receives and priority changes in which no forced send overflows, what was received followed by what is in the queue equals what was in it followed by what was sent, in order |
| DataQueue.ServeStep | kernel/dataqueue.c:199-332 | the receiver whose wait a send ends is the first in the queue, and its datum is the one sent; a receiver that comes to wait is the last |
| DataQueue.ServeRun | kernel/dataqueue.c:199-332 | over any run without early ends of waits and initialisations: the receivers waiting at the start and then those who came to wait are those served and then those still waiting, in the same order |
| DataQueue.AcceptRun | kernel/dataqueue.c:199-332 | the same of the senders of a queue in order of arrival |
| DataQueue.Answers | kernel/dataqueue.c:199-332 | which calls succeed, wait and are refused, and with which datum; a refused call changes nothing |
| DataQueue.LeaveStep | kernel/wait.h:137-142 | an early end of a wait takes out that task and no other |
| DataQueue.OverflowDropsOldest | kernel/dataqueue.c:218-231 | a forced send to a full buffer drops only the oldest buffered datum, and its own goes ahead of the data of waiting senders |
| DataQueue.Conservation | kernel/dataqueue.c:199-332 | for any call and either order of waiting senders: what was in and was sent is what was received, discarded or is still in |
| DataQueue.ConservationRun | kernel/dataqueue.c:199-332 | the same over every run whatever, overflows, early ends of waits and initialisations included |
| DataQueue.DataQueue.EnqueueData | kernel/dataqueue.c:200-208 | appends to the buffer |
| DataQueue.DataQueue.ForceEnqueueData | kernel/dataqueue.c:218-231 | appends to the buffer, dropping the oldest element of a full one |
| DataQueue.DataQueue.DequeueData | kernel/dataqueue.c:241-249 | takes the first element of the buffer |
| DataQueue.DataQueue.SendData | kernel/dataqueue.c:259-276 | to the first waiting receiver, into the buffer, or not at all |
| DataQueue.DataQueue.Send | kernel/dataqueue.c:449-485 | new state, result and woken task are those of the model step |
| DataQueue.DataQueue.ForceSend | kernel/dataqueue.c:590-624 | new state, result and woken task are those of the model step, E_ILUSE for capacity 0 |
| DataQueue.DataQueue.ReceiveData | kernel/dataqueue.c:308-332 | new state, datum and woken sender are those of the model step |
| DataQueue.DataQueue.Receive | kernel/dataqueue.c:634-675 | new state, result, datum and woken task are those of the model step |
| DataQueue.DataQueue.Reprioritize | kernel/wait.h:258-265 | a waiting sender whose priority changes gets its new place, as in the model step |
| DataQueue.DataQueue.Init | kernel/dataqueue.c:779-809 | nothing buffered and nobody waiting |
| PriDataQueue.PlaceSorted | kernel/pridataq.c:210-223 | the list stays sorted by data priority |
| PriDataQueue.PlaceAt | kernel/pridataq.c:210-223 | a new datum goes behind those of its priority or higher, before all others, which keep their order |
| PriDataQueue.ReceivesHighest | kernel/pridataq.c:231-243 | a receive from the buffer takes a datum of the highest priority |
| PriDataQueue.FifoPerPriority | kernel/pridataq.c:193-309 | with senders in order of arrival, seen priority by priority the queue is FIFO: a send appends to its priority, a receive takes the first of one |
| PriDataQueue.FifoPerPriorityRun | kernel/pridataq.c:193-309 | the same over any run of sends, receives and priority changes: the data of each priority are received in the order in which they were sent |
| PriDataQueue.ServeStep | kernel/pridataq.c:193-309 | the receiver whose wait a send ends is the first in the queue, and its datum is the one sent; a receiver that comes to wait is the last |
| PriDataQueue.ServeRun | kernel/pridataq.c:193-309 | over any run without early ends of waits and initialisations: the receivers waiting at the start and then those who came to wait are those served and then those still waiting, in the same order |
| PriDataQueue.AcceptRun | kernel/pridataq.c:193-309 | the same of the senders of a queue in order of arrival |
| PriDataQueue.Answers | kernel/pridataq.c:193-309 | which calls succeed, wait and are refused, E_PAR for a data priority out of range, and with which datum; a refused call changes nothing |
| PriDataQueue.LeaveStep | kernel/wait.h:137-142 | an early end of a wait takes out that task and no other |
| PriDataQueue.StepValid | kernel/pridataq.c:193-309 | sorted list; waiting senders mean a full queue, waiting receivers an empty one, never both; senders in priority order if so configured |
| PriDataQueue.PriDataQueue.TakeBlock | kernel/pridataq.c:199-206 | while there are fewer data than capacity a block is free or was never used, and it is in no list |
| PriDataQueue.PriDataQueue.FindPlace | kernel/pridataq.c:211-219 | the loop through the places of the pointers ends at the place of the new datum |
| PriDataQueue.PriDataQueue.EnqueuePridata | kernel/pridataq.c:194-221 | the datum goes into its place, and list, free list and unused blocks still part the area |
| PriDataQueue.PriDataQueue.DequeuePridata | kernel/pridataq.c:231-244 | the first datum is taken and its block freed |
| PriDataQueue.PriDataQueue.BlocksParted | kernel/pridataq.c:193-243 | every block is in the list, free or never used, and not two of these |
| PriDataQueue.PriDataQueue.Send | kernel/pridataq.c:431-472 | new state, result and woken task are those of the model step |
| PriDataQueue.PriDataQueue.Receive | kernel/pridataq.c:586-628 | new state, result, datum and woken task are those of the model step |
| PriDataQueue.PriDataQueue.Reprioritize | kernel/wait.h:258-265 | a waiting sender whose priority changes gets its new place, as in the model step |
| PriDataQueue.PriDataQueue.Init | kernel/pridataq.c:733-764 | nothing stored and nobody waiting |
| BlockList.Partition | kernel/pridataq.c:193-243 | if the used and free blocks are distinct, below the limit and as many as the limit, every block below it is exactly one of these |
| MemoryPool.MemoryPool.GetMpfBlock | kernel/mempfix.c:182-198 | the block handed out had no owner, and its address is computed from its index |
| MemoryPool.MemoryPool.Get | kernel/mempfix.c:342-378 | a block without an owner goes to the task; it waits or is refused only if every block has an owner |
| MemoryPool.MemoryPool.Rel | kernel/mempfix.c:476-524 | it succeeds exactly for the addresses of blocks that have an owner; the block goes to the first waiting task or is free |
| MemoryPool.MemoryPool.Reprioritize | kernel/wait.h:258-265 | a waiting task whose priority changes gets its new place in a queue in priority order |
| MemoryPool.MemoryPool.BlocksParted | kernel/mempfix.c:181-198 | allocated, free and never used blocks part the area, and fblkcnt counts the last two |
| MemoryPool.MemoryPool.Init | kernel/mempfix.c:534-563 | no block has an owner and nobody waits |
| EventFlag.FewerBits | kernel/eventflag.c:364-366 | clearing bits satisfies no waiting task |
| EventFlag.ConditionBits | kernel/eventflag.c:181-192 | bit by bit: with TWF_ANDW the condition holds exactly if every bit waited for is set, with TWF_ORW exactly if one of them is |
| EventFlag.PatternBits | kernel/eventflag.c:364-366 | bit by bit: setting adds exactly the given bits, clearing keeps exactly the given ones |
| EventFlag.WhoIsWoken | kernel/eventflag.c:292-340 | bit by bit: which waiting tasks a pattern releases, and with which pattern |
| EventFlag.EventFlag.Release | kernel/eventflag.c:292-340 | the loop over the queue without TA_CLR releases exactly the satisfied tasks, in queue order, with it the first of them |
| EventFlag.EventFlag.CheckFlgCond | kernel/eventflag.c:181-192 | tells, bit by bit, whether the condition holds, gives the pattern before it is cleared, and clears it only with TA_CLR |
| EventFlag.EventFlag.SetFlg | kernel/eventflag.c:292-340 | bit by bit: a bit is set afterwards if it was or is being set, unless TA_CLR cleared the pattern; without TA_CLR exactly the tasks whose condition that meets are released, with it exactly the first of them; each gets that pattern, and nobody satisfied is left waiting |
| EventFlag.EventFlag.ClrFlg | kernel/eventflag.c:350-373 | exactly the bits not masked stay set, and still nobody satisfied is left waiting |
| EventFlag.EventFlag.WaiFlg | kernel/eventflag.c:383-426 | the five results and when each comes, E_OK exactly if, bit by bit, the condition holds; the pattern received, what is cleared, and the place in the queue |
| EventFlag.EventFlag.Reprioritize | kernel/wait.h:258-265 | a waiting task whose priority changes gets its new place in a queue in priority order, and still nobody satisfied waits |
| EventFlag.EventFlag.Init | kernel/eventflag.c:536-563 | initial pattern and nobody waiting |
| Semaphore.Semaphore.SigSem | kernel/semaphore.c:265-305 | the resource goes to the first waiting task, is kept, or is refused at the maximum; tasks wait only while the count is 0, and initial + returned = held + acquired |
| Semaphore.Semaphore.WaiSem | kernel/semaphore.c:315-348 | a resource is taken if there is one, otherwise the task waits or is refused |
| Semaphore.Semaphore.Reprioritize | kernel/wait.h:258-265 | a waiting task whose priority changes gets its new place in a queue in priority order |
| Semaphore.Semaphore.Init | kernel/semaphore.c:443-470 | initial count and nobody waiting |
| SerialPort.SerialPort.constructor | syssvc/tSerialPortMain.c:113-180 | after opening, the send token is in its semaphore, there is no receive token, the buffers are empty and no task has a call in progress |
| SerialPort.SerialPort.LostMeansStuck | syssvc/tSerialPortMain.c:424-447 | at most one receive token is missing, and one is exactly if characters wait that nobody can get the token for |
| SerialPort.SerialPort.AcquireSend | syssvc/tSerialPortMain.c:341-344 | the send token goes to the writer, and there is room in the send buffer |
| SerialPort.SerialPort.PutChar | syssvc/tSerialPortMain.c:267-311 | with the token the buffer does not overflow; CR precedes LF if configured; the token is kept unless the buffer is full; characters leave in the order taken |
| SerialPort.SerialPort.ReleaseSend | syssvc/tSerialPortMain.c:349-351 | the token goes back, and the signal cannot fail |
| SerialPort.SerialPort.AcquireRecv | syssvc/tSerialPortMain.c:424-427 | the receive token goes to the reader |
| SerialPort.SerialPort.GetChar | syssvc/tSerialPortMain.c:362-393 | with the token the receive buffer is not empty; characters are read in the order received; the token is kept unless the buffer is empty; START goes out when it is half empty |
| SerialPort.SerialPort.ReleaseRecv | syssvc/tSerialPortMain.c:445-447 | the token goes back, and the signal cannot fail |
| SerialPort.SerialPort.ReadySend | syssvc/tSerialPortMain.c:513-545 | the oldest character goes out; a full buffer gives the token back |
| SerialPort.SerialPort.ReadyReceive | syssvc/tSerialPortMain.c:551-618 | when STOP and START take effect, when transmission goes on and with which character, and that any other character is stored exactly if there is room; the first one brings the token |
| SerialPort.SerialPort.SetControl | syssvc/tSerialPortMain.c:458-479 | the new settings apply, the tokens stay |
| SerialPort.SerialPort.Reopen | syssvc/tSerialPortMain.c:186-241 | closing and opening with no call in progress puts any port in order, a stuck one too |
| SerialPort.SerialPort.Interrupt | syssvc/tSerialPortMain.c:436-451 | a wait that is cut short loses the receive token exactly if its task holds it, as a reader may that waits to echo |
| SerialPort.SerialPort.Perform | syssvc/tSerialPortMain.c:325-450 | every step of tasks and device keeps the tokens but for that one, and none with IOCTL_ECHO off loses it |
| SerialPort.SerialPort.NothingToRead | syssvc/tSerialPortMain.c:424-432 | a stuck port takes no step of a reader |
| SerialPort.SerialPort.Execute | syssvc/tSerialPortMain.c:325-450 | over every interleaving of the steps a stuck port stays stuck and delivers nothing, and while IOCTL_ECHO is off no token is lost, whichever waits are cut short |
| SerialPort.RunWithoutEcho | syssvc/tSerialPortMain.c:436-443 | from the opening on, with IOCTL_ECHO off the port is never stuck |
| SerialPort.LoseToken | syssvc/tSerialPortMain.c:436-443 | with IOCTL_ECHO on a run from the opening on in which the echo of the first of two characters is cut short: the second is never delivered, whatever follows |
| SysLog.SysLog.Write | syssvc/tSysLog.c:93-133 | a record the mask lets through is appended to the history; the ring holds the newest records |
| SysLog.SysLog.Read | syssvc/tSysLog.c:141-167 | the index of the record returned is the previous one + 1 + the number lost in between; this number is the result exactly if it is below 2^31 |
| SysLog.CountOverflows | syssvc/tSysLog.c:141-167 | a log of one record after 2^31 + 1 writes: the read reports a negative number |
| SysLog.SysLog.Accounting | syssvc/tSysLog.c:108-121 | records made = returned + held + reported lost + lost and not yet reported |
| SysLog.CountOn | syssvc/tSysLog.c:119-120 | the 32-bit counter counts losses modulo 2^32 |
| FrameDecoder.Receive | spike/raspike_etrobo.py:133-177 | on every byte stream the nested loops yield the commands of exactly the adjacent triples header, data, data, in order, with a value in range |
| FrameDecoder.FramesSplit | spike/raspike_etrobo.py:140-167 | bytes before a header never hide a frame that starts with it |
| FrameDecoder.FrameMeans | spike/raspike_etrobo.py:148-177 | the meaning of one frame in numbers: number, sign, magnitude, and none if that is above 2048 |
| FrameDecoder.EncodeMeans | target/raspi_gcc/athrill/vdev_prot_raspike.c:283-295 | the bytes sent in numbers: number, sign and the magnitude modulo 4096 |
| FrameDecoder.Recovered | spike/raspike_etrobo.py:135-177 | commands sent after any bytes at all are all recovered, in order |
| FrameDecoder.RoundTrip | target/raspi_gcc/athrill/vdev_prot_raspike.c:283-295 | a command sent in sign and magnitude is decoded as it was exactly if its value is between -2048 and 2048 |
| FrameDecoder.MakeCommandRoundTrip | target/raspi_gcc/athrill/vdev_prot_raspike.c:179-196 | the other encoder, on the two's complement value, is right exactly for 0 to 2048 and -2048 |
| FrameDecoder.MinusOneIsDropped | target/raspi_gcc/athrill/vdev_prot_raspike.c:179-196 | for instance the command with value -1 is not received at all |

## Left out

- Dynamic creation and deletion (acre_*, free control block lists, kernel memory); del_mtx takes a mutex from its holder as ini_mtx does.
- References (ref_*, get_*, sns_*), cancelling of queued requests (can_act, can_wup), interrupt service routines, CPU lock calls: they read or set single fields.
- Parameter checks made by macros are modelled where they decide between effects (identifiers, priorities, contexts); TSK_SELF is given as the task's own number, TPRI_SELF and TPRI_INI as a missing value.
- Target-dependent parts: contexts and the dispatcher are the assignment of the task to be scheduled to the running task; nested interrupts are one interrupt context; timer registers are readings given as parameters.
- A wait that is resumed: the code after dispatch() returns the result recorded in the task, which the model holds as a field. The union of the timeout pointer and the result in the wait information is modelled as two fields.
- The heap of time events and the tasks' timeouts are two models: in the kernel model the timer is the set of registered timeout blocks, and an expiry is an event that may come for any of them.
- In the kernel model the queues of waiting receivers of data queues are plain objects in order of arrival, and what a container does with data is left to the container classes; dispatching and E_RASTER are left to the kernel model.
- Notification handlers: what they do is abstracted as nothing.
- Closing of a serial port while a call is in progress, enSerialPortManage_getChar, and failures of loc_cpu and unl_cpu.
- Kernel.Kernel.WaitObj: covers the common waiting branch only; which branch a container takes is decided in its own class.
- Kernel.Kernel.WakeObj: covers the common waking branch only, one task at a time.
- TimeManager.TimeEvents.SignalTime: is stated for a finite sequence of timer readings and for no other calls between the callbacks; the handler is shown to end once a pass takes no time, which is not promised of every target. With other calls in between, BeginSignal, StartPass and FireNext state what each step of the handler does and keeps, and that other calls keep it too is part of their contracts.
- The instant at which a task of the serial driver reads the settings: it is taken to be that of the step for the character.
- The counters and messages of the frame receiver (num_command, num_fail), and what it does with a command.
