# A verified model of the SysRT simulator core

SysRT simulates real-time operating systems on top of SystemC. This project models the part of it that
decides *which task runs where*: the ready queue, the single- and multiprocessor kernels, the resource
managers, the Pfair and round-robin schedulers, job and execution accounting, precedence-constrained tasks,
the random generator and the parser of instruction texts. Everything is proved for all inputs and all runs.

## How the simulator is modelled

SystemC only decides *when* a handler fires. So every handler is one atomic step, a pending event is part of
the state (a flag, or the time at which it is due), and a run is any sequence of steps that are enabled. This
covers every interleaving that the simulator can produce and some that it cannot.

Each component has two layers. A datatype with step functions is the specification: the invariants and the
theorems over whole runs are proved about it. A class with the fields of the original updates them in place,
with the loops and branches of the original, and every method is proved to perform exactly the step of the
specification (`ensures State() == Step(old(State()))`).

| module (file) | component |
|---|---|
| `Common`, `ReadyQueue` | the sorted list of task models and the scheduler over it |
| `GlobalDispatch`, `GlobalSteps`, `GlobalRuns` | global multiprocessor dispatch: the protocol, its steps, its runs |
| `Selection` | the CPUs that `dispatch()` posts, from the state before the call, with and without guards |
| `SoundRuns` | the same protocol outside the guards: exactly when ownership is kept and when global scheduling results |
| `Migrations` | the kernel's records of the past, over every run that keeps ownership |
| `DispatchScan`, `MultiKernel` (`MrtKernel.dfy`) | the loops of `dispatch()` and the kernel as an object |
| `Scenario`, `SharedTask`, `IdleCpu`, `EndlessScan` | runs in which a task executes on two CPUs, a CPU stays idle, a scan never ends |
| `SingleKernel`, `SingleRuns`, `Resources` | the single-processor kernel, its runs, and a shared resource |
| `PriorityInheritance`, `InheritanceRuns` (`PiRuns.dfy`), `InheritanceProgress` (`PiProgress.dfy`), `PirManagement` (`PirManager.dfy`), `HandedOver` | priority inheritance |
| `Fcfs` | first-come-first-served resources |
| `Pfair` | Pfair windows and the lag bound |
| `ExecInstruction` (`ExecInstr.dfy`), `JobExecution`, `TaskJobs` | one instruction under preemption and speed changes; the instructions of a job; the jobs of a task |
| `RoundRobin`, `RoundRuns` | round-robin rotation, and rounds on any number of processors |
| `Dag`, `DagJobs` | tasks with precedence constraints, and the account of their jobs |
| `RandomGenerator` (`RandomGen.dfy`) | the pseudo-random generator |
| `StrToken`, `RoundTrip` | the instruction-text parser |

## What the code does that its documentation, or its purpose, does not say

Each of these but the last is stated as a lemma; where a property fails, the exact condition for it is proved.

- **One task on two CPUs.** Posting a CPU whose context switch is unfinished withdraws the dispatch of the task
  held by its end event (src/mrtkernel.cpp:249-254), even when another CPU has taken that task meanwhile.
  Posting one CPU keeps ownership exactly when this has not happened (`DispatchCpuKeepsOwnershipIffGuard`); for
  any set of posts `PostKeepsOwnershipIff` is exact, for dispatch() itself `DispatchKeepsOwnershipIff`, and for
  whole runs `OwnedThroughoutIffSound`. `TaskOnTwoCpus` is a run of eleven steps from an idle kernel after which
  both CPUs execute the same task. With zero delays the guard always holds (`FusedRunKeepsInv`).
- **An idle CPU while a task is ready.** Even when ownership is kept, such a post can take the dispatch from a top
  task without a new begin event for it. In `IdleCpuAtRest`, a run of eighteen steps on three CPUs keeps ownership
  throughout and comes to rest with CPU 2 idle and task 5 ready. `GloballyScheduledIff` and
  `ScheduledAfterDispatchIff` say exactly when the system comes to rest globally scheduled.
- **A scan without end.** dispatch() looks for victims without a bound (src/mrtkernel.cpp:230). From ownership it
  always finds them if its posts of free CPUs are harmless (`UndisturbedScanEnds`); `UnguardedNeverEnds` is an
  owned state in which it runs off the queue, and `BlockNeverEnds` a run in which a block in the middle of a switch
  makes it do so. `ScanPostsSize` is the exact condition.
- **Blocking or killing in the middle of a switch** leaves a task dispatched that is not ready, or a pending end
  event for a task that left. A kill or a suspension keeps ownership exactly when the task is not in the middle of
  its switch; a block keeps it exactly when the dispatch() that follows posts the CPU of that task and harms nobody
  (`StepKeepsOwnershipIff`). `KilledTaskExecutes` is a run in which a killed task then executes.
- **Hand-off loses the saved priority.** `PIRManager::release` resets a priority from an entry that only a
  request on a *free* resource writes. Over every run, a release restores the priority exactly when nobody
  waits, the owner found the resource free, or it had the same priority when it last did
  (`ReleaseUndoesInheritance`). An owner by hand-off that never found it free gets priority 0, the most urgent
  one; `HandedOwnerJumpsToTheTop` is a run of nineteen steps that leads there.
- **Thresholds are not undone.** `disableThreshold` reads the current priority, not the saved one.
- **The arrival buffer holds one job more than its size**; size 0 buffers one (the constructor's comment says
  none), and size -1 buffers none (the field's comment says any number).
- **An arrival between the end of a job and the start of a buffered one** starts a job that the buffered start
  then overwrites (`ArrivalBeforeBufferedStart`; `JobOverwritten` is such a run).
- **Starting or stopping at a reduced speed** counts as if the speed were full, so work can finish early
  (`StartIsTimelyIffFullSpeed`, `StopAccountsIffFullSpeed`); `refreshExec` never makes it finish early.
- **`split_param` on an unclosed parenthesis** wraps its position around to 0 and starts again from position 1:
  it returns what both scans found, or never returns (`LoopEndsIff`).
- **A round that comes too early is the last one.** The one timer is set for the task that began last. If it fires
  before the front has had its slice, the front keeps its place, and the timer is not set again until another task
  begins (`FireSetsTimerIff`; `UnusedSliceEndsRounds` is such a run on two processors).
- **Killing the current task in the middle of its switch** on one processor leaves the processor with a task that is
  not ready (`TerminateKeepsValidIff`).
- **Spaces between a call and the comma behind it** make an empty parameter of their own: `f(x) ,y` has three. The
  arguments come back if and only if no call but the last is followed by spaces (`ReadIsArgsIff`).
- **A busy child** is activated a second time for the same job when a parent ends (`EndKeepsInvIffNoOverlap`;
  `BusyChildReleasedTwice` is such a run).
- **FCFS and inheritance managers ignore the number of units** and always move one. The number is not in the model.

## Model

| member | source | states |
|---|---|---|
| ReadyQueue.BeforeIsStrictTotalOrder | src/scheduler.cpp:27-38 | the comparison by priority, insertion time and task number is a strict total order, so no two tasks tie |
| ReadyQueue.InsertSortedKeepsOrder | src/plist.hpp:51-54 | inserting a task that is not in a strictly sorted list keeps it strictly sorted and adds exactly that task |
| ReadyQueue.WithoutKeepsOrder | src/plist.hpp:56-60 | erasing by identity leaves a strictly sorted list without that task even when the key of the erased task had changed and the list was out of order at its place |
| ReadyQueue.SortedIsUnique | src/plist.hpp:30-32 | a strictly sorted list is determined by its members |
| ReadyQueue.InsertKeepsValid | src/scheduler.cpp:75-84 | after an insertion the queue holds exactly the active models, strictly sorted, one more than before |
| ReadyQueue.ExtractKeepsValid | src/scheduler.cpp:86-93 | after an extraction the queue holds exactly the active models, also when the priority was changed before the extraction; the two operations commute |
| ReadyQueue.RekeyKeepsValid | src/scheduler.cpp:115-123 | extract, change priority, insert keeps the members, re-establishes the order for the new key and sets that key |
| ReadyQueue.ExtractUndoesInsert | src/scheduler.cpp:75-93 | extracting a task just inserted gives back the same queue |
| ReadyQueue.RankIsHigherPriorityCount | src/scheduler.cpp:146-155 | the task at position n has exactly n ready tasks before it in the priority order |
| ReadyQueue.ThresholdRestoredIffEqual | src/scheduler.cpp:115-131 | enabling and then disabling a threshold gives the priority back exactly when the threshold equals it |
| ReadyQueue.Scheduler.AddTask | src/fpsched.cpp:18-22 | a new model is inactive with the given priority, and the queue still holds exactly the active models |
| ReadyQueue.Scheduler.Insert | src/scheduler.cpp:75-84 | for a task that is not queued the new state is the insertion step of InsertKeepsValid: exactly one more active model, at its sorted place, with the current insertion time |
| ReadyQueue.Scheduler.Erase | src/plist.hpp:56-60 | the linear search removes the one occurrence of the element whatever the keys are |
| ReadyQueue.Scheduler.Extract | src/scheduler.cpp:86-93 | for a known task the new state is the extraction step of ExtractKeepsValid; an unknown task changes nothing |
| ReadyQueue.Scheduler.GetTaskN | src/scheduler.cpp:146-155 | the element reached by walking n places, which RankIsHigherPriorityCount characterises; none when the queue is too short |
| ReadyQueue.Scheduler.EnableThreshold | src/scheduler.cpp:115-123 | the task is queued again with its threshold as priority and its old priority is saved |
| ReadyQueue.Scheduler.DisableThreshold | src/scheduler.cpp:125-130 | the task is queued again with the priority it currently has; the saved one is not used. The dispatch that follows is the kernel's |
| GlobalDispatch.NoTaskOnTwoCpus | src/mrtkernel.cpp:162-197 | under ownership no task executes on two CPUs, nor executes on one while another is about to start it |
| GlobalDispatch.CpuPartition | src/mrtkernel.cpp:204-242 | every CPU is free, holds a task of the top ranks, or holds one below them, and only one of these |
| GlobalDispatch.Pigeonhole | src/mrtkernel.cpp:204-242 | free CPUs plus CPUs with a task below the top equal the undispatched top tasks plus the CPUs a short queue cannot fill; a queue no longer than the CPUs leaves no task below the top |
| GlobalDispatch.ChosenIsRight | src/mrtkernel.cpp:204-242 | dispatch() selects exactly as many CPUs as there are undispatched top tasks, none of which holds a top task, and every other CPU when the queue is long enough |
| GlobalDispatch.DispatchCpuKeepsOwnershipIffGuard | src/mrtkernel.cpp:244-258 | posting one CPU keeps two-phase ownership if and only if the task of its unfinished switch has not been taken by another CPU |
| GlobalDispatch.PostOne | src/mrtkernel.cpp:244-258 | posting a set of CPUs and then one more is posting the larger set, so the order of the posts does not matter |
| GlobalDispatch.PostKeepsOwnershipIff | src/mrtkernel.cpp:244-258 | posting any set of CPUs keeps two-phase ownership if and only if each of them is guarded, or the CPU that took the task of its unfinished switch is itself still switching and posted too |
| GlobalDispatch.PostOwnsIff | src/mrtkernel.cpp:244-258 | the same from a state in which a task may have left the queue in the middle of its switch: the posts restore ownership if and only if they are harmless and withdraw every dispatch of a task that left |
| GlobalDispatch.PostKeepsOwnership | src/mrtkernel.cpp:244-258 | posting CPUs that are all guarded keeps two-phase ownership |
| GlobalDispatch.PostKeepsTop | src/mrtkernel.cpp:244-258 | posting guarded CPUs without top tasks leaves the undispatched top tasks and the CPUs of top tasks as they were |
| Selection.ScanPostsSize | src/mrtkernel.cpp:204-242 | dispatch() posts free CPUs and victims that differ from them, at most one per undispatched top task, and exactly one if and only if its scan does not run off the queue |
| Selection.UndisturbedScanEnds | src/mrtkernel.cpp:229-240 | from ownership, a scan whose posts of free CPUs are harmless never runs off the queue |
| Selection.GuardedScanIsChosen | src/mrtkernel.cpp:204-242 | with guarded CPUs the scan over the changing state ends and posts exactly the CPUs of ChosenIsRight |
| Selection.DispatchKeepsOwnershipIff | src/mrtkernel.cpp:204-258 | from ownership, dispatch() keeps it if and only if each free CPU it posts is guarded, or the CPU that took the task of its unfinished switch is still switching and posted as well; posts of victims never harm |
| Selection.DispatchOwnsIff | src/mrtkernel.cpp:204-258 | the same after a task left in the middle of its switch, when dispatch() also has to withdraw the dispatch of that task |
| Selection.PostBalancesIff | src/mrtkernel.cpp:244-258 | posting one CPU for each undispatched top task leaves enough pending begin events if and only if every task below the top that stays dispatched has one on its CPU, and the top tasks whose dispatch is withdrawn are no more than the other pending CPUs without a top task |
| Selection.DispatchKeepsInvIff | src/mrtkernel.cpp:204-242 | dispatch() leads to the progress invariant if and only if it leads to ownership and this condition on the state before the call holds |
| Selection.DispatchEstablishesInv | src/mrtkernel.cpp:204-242 | from ownership, and with every CPU it selects guarded, dispatch() establishes that every task below the top sits on a CPU with a pending begin event and that enough begin events are pending for all undispatched top tasks |
| GlobalSteps.RunningOn | src/mrtkernel.cpp:144-153 | under ownership the search for the CPU of a task finds it exactly when the task executes, and finds the CPU it is dispatched to |
| GlobalSteps.ArrivalKeepsOwnership | src/mrtkernel.cpp:184-188 | entering the queue keeps two-phase ownership |
| GlobalSteps.SuspendKeepsOwnershipIff | src/mrtkernel.cpp:162-172 | suspending a ready task keeps ownership if and only if it is not in the middle of a switch |
| GlobalSteps.SuspendKeepsScannable | src/mrtkernel.cpp:162-172 | suspending any ready task, in the middle of its switch or not, keeps all of ownership but that only ready tasks are dispatched |
| GlobalSteps.TerminateKeepsOwnershipIff | src/mrtkernel.cpp:199-203 | terminating a ready task keeps ownership if and only if no CPU holds it |
| GlobalSteps.OnBeginKeepsOwnership | src/mrtkernel.cpp:267-304 | a begin event keeps ownership, whatever the state of its CPU |
| GlobalSteps.OnEndDispatchKeepsOwnership | src/mrtkernel.cpp:306-316 | an end event keeps ownership and starts the task it holds |
| GlobalSteps.FirstUndispatchedIsTop | src/mrtkernel.cpp:279-283 | while a CPU is free, the first non-dispatched task of the queue is among the top ranks |
| GlobalSteps.ArrivalKeepsInv | src/mrtkernel.cpp:184-188 | an arrival whose dispatch() finds the selected CPUs guarded restores the progress invariant from ownership alone |
| GlobalSteps.BlockKeepsInv | src/task.cpp:135-142 | blocking a task that is not in the middle of a switch, with a dispatch() that finds the selected CPUs guarded, restores the progress invariant from ownership alone |
| GlobalSteps.TerminateKeepsInv | src/mrtkernel.cpp:199-203 | killing a task that no CPU holds keeps the progress invariant without any dispatch |
| GlobalSteps.OnEndKeepsInv | src/mrtkernel.cpp:190-198 | at the end of a job posting its own CPU alone keeps the progress invariant |
| GlobalSteps.OnBeginKeepsInv | src/mrtkernel.cpp:267-304 | a begin event keeps the progress invariant: the task it takes is a top task and one fewer is needed |
| GlobalSteps.OnEndDispatchKeepsInv | src/mrtkernel.cpp:306-316 | an end event keeps the progress invariant |
| GlobalRuns.StepKeepsInv | src/mrtkernel.cpp:162-316 | every enabled and safe handler keeps ownership and progress |
| GlobalRuns.RunKeepsInv | src/mrtkernel.cpp:162-316 | so does every run of the two-phase protocol |
| GlobalRuns.AtRestIsGloballyScheduled | src/mrtkernel.cpp:204-242 | with no event pending the executing tasks are exactly the min(CPUs, ready tasks) first of the queue, each on its own CPU, and each precedes every ready task that does not execute |
| GlobalRuns.GlobalSchedulingAtRest | src/mrtkernel.cpp:162-316 | this holds at rest after every run from the initial state, with any delays and any order of firings, in which no task is blocked or killed in the middle of its switch and dispatch() finds the CPUs it selects guarded |
| GlobalRuns.Settles | src/mrtkernel.cpp:244-316 | left alone, the pending events run out within a bound, and in whatever order they fire the same tasks end up executing |
| SoundRuns.StepKeepsOwnershipIff | src/mrtkernel.cpp:162-316 | from ownership, each handler keeps it if and only if the free posts of its dispatch() are harmless, a task that blocks in the middle of its switch has its CPU posted, and no task is killed in the middle of its switch; such a step is called sound |
| SoundRuns.SoundStepEnds | src/mrtkernel.cpp:204-242 | the dispatch() of a sound step ends, unless a task blocks in the middle of its switch |
| SoundRuns.OwnedThroughoutIffSound | src/mrtkernel.cpp:162-316 | over every run, ownership holds throughout if and only if every step is sound |
| SoundRuns.SafeRunIsSound | src/mrtkernel.cpp:162-316 | the runs of GlobalSchedulingAtRest are among these runs, and every dispatch() in them ends |
| SoundRuns.SettlesScheduledIff | src/mrtkernel.cpp:260-316 | from every owned state and with any order of firings, what comes to rest is globally scheduled if and only if the progress invariant held |
| SoundRuns.ScheduledAfterDispatchIff | src/mrtkernel.cpp:162-316 | after every sound run that ends with an arrival or a block, guarded or not, the system comes to rest globally scheduled if and only if the state in which dispatch() is called meets the condition of PostBalancesIff |
| SoundRuns.GloballyScheduledIff | src/mrtkernel.cpp:162-316 | after every sound run, whatever its last event, the system comes to rest globally scheduled if and only if the progress invariant held when the firings began |
| GlobalRuns.FusedStepKeepsInv | src/mrtkernel.cpp:162-316 | with the default zero delays, where the end of a switch follows its begin at once, every handler keeps ownership and progress with no further condition |
| GlobalRuns.FusedRunKeepsInv | src/mrtkernel.cpp:162-316 | with the default zero delays (src/kernel.hpp:123, src/mrtkernel.cpp:89), after every run of arrivals, ends, blocks, kills and begin firings, whenever no begin event is pending the executing tasks are exactly the first of the queue |
| Migrations.MigrationsAreCounted | src/mrtkernel.cpp:162-316 | over every run that keeps ownership, seen from who executes and who is dispatched: for a task that does not execute `oldExe` is the CPU on which it last did, `migrations` counts exactly the takes by another CPU, `contextSwitches` exactly the dispatches due (one per top task without a CPU at an arrival or block, one at the end of a job), and the switching CPUs and the tasks of the end events are those of the switches that have not ended |
| Migrations.StepAgrees | src/mrtkernel.cpp:162-316 | each handler keeps these records right |
| Migrations.BeginIs | src/mrtkernel.cpp:267-304 | the begin event of a CPU counts a migration exactly when the task it takes was last on another CPU |
| Migrations.InitAgrees | src/mrtkernel.cpp:68-86 | the records of a fresh kernel are right |
| DispatchScan.CountStep | src/mrtkernel.cpp:211-216 | the counting loop adds one exactly for a task that neither executes nor is dispatched |
| DispatchScan.FoundNow | src/mrtkernel.cpp:58-64 | a CPU looks free in the changing state, with the CPUs found before it posted, exactly when it was free at the start or the post of an earlier free CPU withdraws the task it was switching to |
| DispatchScan.FreeStep | src/mrtkernel.cpp:222-228 | guarded or not, the next CPU found free in the changing state is the next one of the selection, and posting it extends the selection by exactly that CPU |
| DispatchScan.VictimStep | src/mrtkernel.cpp:231-239 | guarded or not, a task at the next rank is still dispatched exactly when it was after the free CPUs, and posting its CPU extends the selection by exactly that CPU |
| DispatchScan.VictimIsNew | src/mrtkernel.cpp:231-239 | the CPU of the next task still dispatched has not been posted before, so every victim is a new CPU |
| DispatchScan.ScanDone | src/mrtkernel.cpp:241-241 | when the count reaches zero the CPUs posted are exactly those of the selection |
| DispatchScan.VictimsDone | src/mrtkernel.cpp:229-240 | at the end of the queue too they are those of the selection, and the scan ends if and only if none is missing |
| MultiKernel.MRTKernel.GetNextFreeProc | src/mrtkernel.cpp:58-64 | the first CPU from a position on that is idle with nothing dispatched to it |
| MultiKernel.MRTKernel.IsDispatched | src/mrtkernel.cpp:48-56 | whether some task is dispatched to the CPU |
| MultiKernel.MRTKernel.GetProcessor | src/mrtkernel.cpp:144-153 | the last CPU in order that executes the task |
| MultiKernel.MRTKernel.DispatchOn | src/mrtkernel.cpp:244-258 | the maps and the pending events change as in the posting step that DispatchCpuKeepsOwnershipIffGuard is about |
| MultiKernel.MRTKernel.CountNewTasks | src/mrtkernel.cpp:206-216 | the loop counts exactly the undispatched tasks of the top ranks and stops at the end of the top |
| MultiKernel.MRTKernel.DispatchNextVictim | src/mrtkernel.cpp:230-239 | the endless loop finds a victim if and only if one is left from the given rank on; then exactly that CPU is posted, and otherwise none |
| MultiKernel.MRTKernel.Dispatch | src/mrtkernel.cpp:204-242 | from every state that a handler calls it in, guarded or not: exactly the CPUs of the selection of Selection are posted, which is fixed by the state before the call, and true is returned if and only if the scan does not run off the queue |
| MultiKernel.MRTKernel.OnArrival | src/mrtkernel.cpp:184-188 | from every owned state: ends in the arrival step of StepKeepsOwnershipIff and ArrivalKeepsInv, and returns true if and only if the scan does not run off the queue |
| MultiKernel.MRTKernel.SuspendTask | src/mrtkernel.cpp:162-172 | ends in the suspension step of SuspendKeepsOwnershipIff |
| MultiKernel.MRTKernel.BlockTask | src/task.cpp:135-142 | for every ready task, in the middle of its switch or not: ends in the block step of StepKeepsOwnershipIff and BlockKeepsInv, and returns true if and only if the scan does not run off the queue |
| MultiKernel.MRTKernel.OnEnd | src/mrtkernel.cpp:190-198 | ends in the end step of OnEndKeepsInv; the task that ended was ready and had a CPU, so no null CPU is posted |
| MultiKernel.MRTKernel.TerminateTask | src/mrtkernel.cpp:199-203 | ends in the termination step of TerminateKeepsOwnershipIff |
| MultiKernel.MRTKernel.SelectTask | src/mrtkernel.cpp:279-287 | the first task of the queue that is not dispatched, if any |
| MultiKernel.MRTKernel.OnBeginDispatchMulti | src/mrtkernel.cpp:267-304 | drops, selects and takes as in the begin step of OnBeginKeepsInv, counting a migration only for a task that last ran elsewhere; the length of the switch is left open |
| MultiKernel.MRTKernel.OnEndDispatchMulti | src/mrtkernel.cpp:306-316 | the kernel's maps and events end in the end-of-switch step of OnEndDispatchKeepsInv |
| SharedTask.TaskOnTwoCpus | src/mrtkernel.cpp:249-254 | a run from an idle kernel, every step of which is possible and whose end events fire in the order of their switches, leaves task 3 executing on both CPUs; its eighth step is the first that is not sound |
| SharedTask.KilledTaskExecutes | src/mrtkernel.cpp:199-203 | a run from an idle kernel in which a task killed in the middle of its switch executes with an empty queue |
| IdleCpu.IdleCpuAtRest | src/mrtkernel.cpp:222-258 | a run from an idle kernel on three CPUs in which every step keeps ownership and every dispatch() ends, and which comes to rest with CPU 2 idle and task 5 ready; its fourteenth step posts an unguarded CPU and fails the condition of PostBalancesIff |
| EndlessScan.BlockNeverEnds | src/mrtkernel.cpp:229-240 | a run from an idle kernel on one CPU after which blocking the task in the middle of its switch makes the scan run off the queue |
| EndlessScan.UnguardedNeverEnds | src/mrtkernel.cpp:229-240 | an owned state in which the scan runs off the queue because of the post of an unguarded CPU |
| SingleKernel.OnBeginTakesFirst | src/kernel.cpp:119-148 | after a begin event the current task is the first ready one, or none, and no ready task has a better priority |
| SingleKernel.RTKernel.Suspend | src/kernel.cpp:70-78 | ends in the suspension step of the specification and keeps the queue valid; only the current task gives up the processor |
| SingleKernel.RTKernel.OnArrival | src/kernel.cpp:86-98 | the two branches agree: the task is queued and one begin event is pending, whether or not a switch is in progress |
| SingleKernel.RTKernel.OnEnd | src/kernel.cpp:100-108 | the task leaves the queue and becomes the previous one; ends in the end step of ProcessorIsAttended, in which a begin event is pending if a task is left |
| SingleKernel.RTKernel.Terminate | src/kernel.cpp:55-58 | the task only leaves the queue |
| SingleKernel.RTKernel.OnBeginDispatch | src/kernel.cpp:119-148 | ends in the begin step of OnBeginTakesFirst; a context switch starts only for a task that is not the previous one |
| SingleKernel.RTKernel.OnEndDispatch | src/kernel.cpp:151-156 | the switch is over and no end event is pending; queue and current task stay. EndEventFindsTask shows that there is a current task to schedule |
| SingleKernel.AttendedAtRest | src/kernel.cpp:119-148 | with no begin event pending the processor is free exactly when nobody is ready, and otherwise the current task goes before every other ready one |
| SingleRuns.ProcessorIsAttended | src/kernel.cpp:55-156 | over every run of arrivals, job ends, blocks, kills, new priorities, refreshes and events: a begin event is pending or the first ready task has the processor; the previous task on record is the one that had it last; and a switch is open exactly when it was begun, for another task than that one, and has not ended |
| SingleRuns.StepKeepsAttended | src/kernel.cpp:55-156 | every handler leaves a begin event pending or the first ready task on the processor |
| SingleRuns.BeginIsPendingIff | src/kernel.cpp:80-163 | a begin event is pending after a handler if and only if it was an arrival, a block, a refresh or a job end that leaves a task ready, or one was pending that did not fire |
| SingleRuns.TerminateKeepsValidIff | src/kernel.cpp:55-58 | a kill keeps the current task among the ready ones if and only if it kills another task |
| Resources.Resource.Lock | src/resource.cpp:33-37 | one unit fewer, owned by the given task |
| Resources.Resource.Unlock | src/resource.cpp:39-43 | one unit more, owned by nobody |
| PriorityInheritance.OwnerIsAnother | src/piresman.cpp:44-53 | a locked resource has an owner that is ready and is not the requester, so extracting it from the queue is defined |
| PriorityInheritance.LockKeepsInv | src/piresman.cpp:64-75 | taking a free resource keeps the inheritance invariant |
| PriorityInheritance.InheritKeepsInv | src/piresman.cpp:44-63 | a blocking request keeps it: the owner dominates the new waiter and all earlier ones |
| PriorityInheritance.UnlockKeepsInv | src/piresman.cpp:80-85 | a release with nobody waiting keeps it |
| PriorityInheritance.HandOffKeepsInv | src/piresman.cpp:85-94 | a hand-off keeps it: the new owner dominates the remaining waiters; the old owner gets the saved entry as priority and all others keep theirs |
| PriorityInheritance.BeginKeepsInv | src/kernel.cpp:119-148 | a begin event keeps it: the task chosen dominates every owner and every blocked task |
| PriorityInheritance.ArriveKeepsInv | src/kernel.cpp:86-98 | an arrival keeps it |
| PriorityInheritance.FinishKeepsInv | src/kernel.cpp:100-108 | the end of a job that holds nothing keeps it |
| InheritanceRuns.StepKeepsInv | src/piresman.cpp:33-95 | every enabled event keeps the inheritance invariant |
| InheritanceRuns.NoUnboundedInversion | src/piresman.cpp:33-95 | over every run, while a task waits, the owner is ready with at least its priority, and any current task has at least its priority |
| InheritanceRuns.InheritanceOnlyRaises | src/piresman.cpp:56-57 | a blocked request sets the owner to the priority of the requester, which never lowers it |
| InheritanceRuns.HistoryIsRecorded | src/piresman.cpp:64-75 | over every run, the entry of a task for a resource is the priority it had when it last found that resource free, or 0 if it never did; and an owner nobody waits for still has the priority it got the resource with |
| InheritanceRuns.ReleaseUndoesInheritance | src/piresman.cpp:80-95 | over every run, a release gives the owner the priority it had when it got the resource if and only if nobody waits, the owner found the resource free, or its priority when it last found that resource free (0 if it never did) happens to be the same |
| InheritanceRuns.HandOffOwnerGetsZero | src/piresman.cpp:90-90 | an owner without a saved entry that releases while others wait gets priority 0 |
| InheritanceRuns.EndEventFindsTask | src/kernel.cpp:151-156 | in every run whose tasks request, release and end only while they execute, a pending end event always finds a current task, so the handler never schedules a null one |
| InheritanceProgress.RunsProgress | src/piresman.cpp:33-95 | over every run of the inheritance system: a begin event is pending or the first ready task has the processor, after a blocked request and after a release too; every active task is ready or waits for a resource; and a ready task counts among its equals from its arrival, from the request that raised it, or from the release that served it or reset its priority |
| InheritanceProgress.StepKeepsAttended | src/kernel.cpp:170-188 | every event keeps the first of these |
| InheritanceProgress.BeginIsPendingIff | src/kernel.cpp:86-188 | a begin event is pending after an event if and only if it was an arrival, a release, a request that blocks or a job end that leaves a task ready, or one was pending that did not fire |
| InheritanceProgress.StepLosesNobody | src/piresman.cpp:33-95 | every event keeps the second |
| InheritanceProgress.StepStamps | src/piresman.cpp:33-95 | every event keeps the third |
| HandedOver.HandedOwnerJumpsToTheTop | src/piresman.cpp:33-95 | a run of nineteen possible steps from the initial state, in which every task acts only after its context switch has ended, leads to such an owner; its release moves it from priority 10 to 0 |
| PirManagement.PIRManager.Request | src/piresman.cpp:33-78 | ends in the state of LockKeepsInv or InheritKeepsInv, and returns false exactly when the resource was locked |
| PirManagement.PIRManager.Release | src/piresman.cpp:80-95 | ends in the state of UnlockKeepsInv or HandOffKeepsInv, depending on whether a task waits |
| PirManagement.PIRManager.RequestResource | src/kernel.cpp:170-178 | ends in the request step over which NoUnboundedInversion is proved, with a dispatch only when the request blocks |
| PirManagement.PIRManager.ReleaseResource | src/kernel.cpp:180-188 | ends in the release step over which NoUnboundedInversion is proved, always with a dispatch |
| Fcfs.StepKeepsLines | src/fcfsresmanager.cpp:30-57 | waiting tasks stay active, outside the ready queue, and wait in one place of one line only |
| Fcfs.StepKeepsFair | src/fcfsresmanager.cpp:30-57 | every event conserves units, leaves nobody waiting while a unit is free, and keeps the line equal to the blocking order less those served |
| Fcfs.InitialIsFair | src/resource.cpp:17-23 | a fresh manager over resources with all units free satisfies both |
| Fcfs.ConservedAndFair | src/fcfsresmanager.cpp:30-57 | over every run, available units plus holders equal the total, those served so far are a prefix of the order in which tasks blocked, and the recorded owner and user of a resource are the task that got the latest unit, or nobody if one was given back since with nobody waiting |
| Fcfs.NoOvertaking | src/fcfsresmanager.cpp:39-43 | a request finds a unit free only when everybody who ever blocked has been served |
| Fcfs.MovesUpAtReleases | src/fcfsresmanager.cpp:51-56 | over every run, the waiter at place i moves up exactly one place per release and by nothing else |
| Fcfs.ReleaseServesFront | src/fcfsresmanager.cpp:51-56 | a release gives the unit to the front waiter, which becomes ready |
| Fcfs.RunsProgress | src/fcfsresmanager.cpp:30-57 | over every run of the first-come-first-served system a begin event is pending or the first ready task has the processor, and every active task is ready or waits for a unit |
| Fcfs.BeginIsPendingIff | src/kernel.cpp:86-188 | the same for requests and releases of units |
| Fcfs.FCFSResManager.RequestUnit | src/fcfsresmanager.cpp:30-45 | ends in the request step of StepKeepsFair, and returns false exactly when no unit was free |
| Fcfs.FCFSResManager.ReleaseUnit | src/fcfsresmanager.cpp:47-57 | ends in the release step of StepKeepsFair: the front waiter, if any, holds the unit and is ready |
| Pfair.WindowsInSequence | src/pfair_scheduler.cpp:25-39 | every window has a slot, ends move forward, and each release is the previous deadline or one slot before it |
| Pfair.WindowsRepeatEachPeriod | src/pfair_scheduler.cpp:25-39 | C subtasks further both ends of the window are T later |
| Pfair.SubtasksBefore | src/pfair_scheduler.cpp:25-39 | in a schedule that meets every window, the first floor(w t) subtasks and none from ceil(w t) on have run before t |
| Pfair.LagBound | src/pfair_scheduler.cpp:25-39 | at every time the slots received differ from w t by strictly less than one, and equal it whenever it is whole |
| Pfair.EarliestMeetsWindows | src/pfair_scheduler.cpp:25-39 | for every weight a schedule that meets all windows exists: the one that runs each subtask in the slot of its release |
| Pfair.PeriodsAreMet | src/pfair_scheduler.cpp:25-39 | at the k-th period boundary the task has received exactly k C slots |
| Pfair.PeriodEndIsPeriodBoundary | src/pfair_scheduler.cpp:32-36 | the flag marks the subtask whose window ends on a period boundary, where the next one starts |
| Pfair.PfairModel.ComputeNextJobTime | src/pfair_scheduler.cpp:25-39 | the fields describe the window of the subtask with the old index, and the index grows by one |
| ExecInstruction.NeverFinishesEarly | src/exeinstr.cpp:151-163 | over every instance started and stopped at full speed with k speed changes between, the work done exceeds the accounted work by between 0 and k, and when the end event fires it is at least the cost and less than the cost plus k + 1 |
| ExecInstruction.PreemptionConservesWork | src/exeinstr.cpp:80-132 | without speed changes the end event is due at last start plus cost minus what ran before, fires exactly when the executed intervals add up to the cost, and that sum is the execution time recorded |
| ExecInstruction.StepKeepsAccount | src/exeinstr.cpp:80-163 | every start, stop and speed change keeps this account |
| ExecInstruction.EndIsFresh | src/exeinstr.cpp:121-132 | the end of an instance leaves the instruction ready for the next one |
| ExecInstruction.StopAccountsIffFullSpeed | src/exeinstr.cpp:102-117 | a stop accounts for the work done if and only if the speed was full or the interval empty |
| ExecInstruction.StartIsTimelyIffFullSpeed | src/exeinstr.cpp:80-100 | when an instruction starts at speed v, the work left is done by the time the end event fires if and only if v is full or nothing is left |
| ExecInstruction.StoppedAtHalfSpeedFinishesEarly | src/exeinstr.cpp:102-117 | a concrete instance whose end event is due with half of its work done |
| ExecInstruction.ExecInstr.Schedule | src/exeinstr.cpp:80-100 | ends in the start step of StepKeepsAccount; only a fresh instance takes the drawn cost |
| ExecInstruction.ExecInstr.Deschedule | src/exeinstr.cpp:102-117 | ends in the stop step of StepKeepsAccount; an instruction that does not execute only loses its end event |
| ExecInstruction.ExecInstr.OnEnd | src/exeinstr.cpp:121-132 | ends in the end step of PreemptionConservesWork and EndIsFresh |
| ExecInstruction.ExecInstr.RefreshExec | src/exeinstr.cpp:151-163 | ends in the speed-change step of NeverFinishesEarly |
| ExecInstruction.ExecInstr.GetExecTime | src/exeinstr.cpp:62-67 | the recorded time plus the interval in progress, if any |
| JobExecution.ExecTimeIsTimeExecuted | src/task.cpp:161-168 | over every run of jobs, starts, preemptions, instruction ends and speed changes, Task::getExecTime is exactly the time for which the current job has executed |
| JobExecution.StepKeepsTime | src/task.cpp:287-319 | every such step keeps the recorded times equal to those read off a watch on the processor |
| JobExecution.JobExecutesItsCosts | src/task.cpp:310-319 | over every run at full speed, however often it is preempted, a job ends only with its last instruction and its execution time is then the sum of the costs drawn for all of them; before that it is the sum for the instructions that ended |
| JobExecution.StepKeepsCosts | src/task.cpp:287-319 | every start, preemption and instruction end at full speed keeps that account |
| JobExecution.EndIsCost | src/exeinstr.cpp:121-132 | the end event is due when the instruction has executed for exactly its cost |
| JobExecution.NewJobIsTimedAndCosted | src/exeinstr.cpp:48-55 | a new task with new instructions meets both accounts |
| JobExecution.JobTask.HandleArrival | src/task.cpp:112-133 | every instruction object is reset and the job begins with no time executed |
| JobExecution.JobTask.OnSched | src/task.cpp:287-298 | the current instruction starts and the task executes; the other instructions stay |
| JobExecution.JobTask.OnDesched | src/task.cpp:300-308 | the current instruction stops and the task is ready; the other instructions stay |
| JobExecution.JobTask.OnInstrEnd | src/task.cpp:310-319 | the ended instruction's time is added; the next one starts at once while the task executes, and after the last one the job ends |
| JobExecution.JobTask.GetExecTime | src/task.cpp:161-168 | the time of ExecTimeIsTimeExecuted |
| TaskJobs.NewTaskIsAccounted | src/task.cpp:41-49 | at the start of a run the account of a task is empty |
| TaskJobs.StepKeepsAccount | src/task.cpp:228-259 | every arrival, end and buffered start keeps the account of jobs |
| TaskJobs.JobsAreAccounted | src/task.cpp:228-259 | over every run: arrivals = started + buffered + dropped, started = finished + 1 while active, jobs start in arrival order with deadlines counted from their own arrivals, and the buffer stays within its size plus one; the task's arrival and deadline are those of the job started last, and its last arrival that of the job finished last |
| TaskJobs.ArrivalBeforeBufferedStart | src/task.cpp:255-258 | an arrival before the next step of the task keeps the account if and only if no buffered start is pending; otherwise a job is overwritten |
| TaskJobs.JobOverwritten | src/task.cpp:255-258 | a run of a new task after which an arrival comes before the buffered start: two jobs are started after the first end and only one is active |
| TaskJobs.BufferCapacity | src/task.cpp:184-189 | an arrival is buffered if and only if fewer than size + 1 are; a negative size buffers none |
| TaskJobs.Task.OnArrival | src/task.cpp:228-240 | the job state ends in the arrival step of StepKeepsAccount: started, buffered or dropped, and counted in each case |
| TaskJobs.Task.OnEndInstance | src/task.cpp:242-259 | ends in the end step of StepKeepsAccount; the buffered start is posted exactly when an arrival is buffered |
| TaskJobs.Task.OnFakeArrival | src/task.cpp:321-325 | ends in the buffered start of StepKeepsAccount, with the oldest buffered arrival |
| TaskJobs.Task.OnInstrEnd | src/task.cpp:310-319 | adds the execution time, moves to the next instruction and ends the job exactly after the last one |
| RoundRobin.RotateKeepsValid | src/rrsched.cpp:67-77 | an expired round keeps the queue sorted with the same members |
| RoundRobin.MovesUpAtExpiredRoundIff | src/rrsched.cpp:67-77 | at an expired round every waiting task inserted no later moves up exactly one place if it goes before the old front's new place (inserted earlier, or at the same time with a smaller number), and keeps its place otherwise |
| RoundRobin.LaterArrivalStaysBehind | src/scheduler.cpp:75-84 | a strictly later arrival leaves the number of tasks ahead of every queued task unchanged |
| RoundRobin.LeavingHelps | src/scheduler.cpp:86-93 | a departure takes one place off exactly the tasks behind it |
| RoundRobin.BoundedWaiting | src/rrsched.cpp:67-77 | over every run of later arrivals, departures and expired rounds, the tasks ahead of a waiting task plus the rounds in which it moved never exceed the tasks ahead at first, so it leads after that many; MovesUpAtExpiredRoundIff decides in which rounds it moves |
| RoundRobin.RotatesByOne | src/rrsched.cpp:67-77 | with everybody inserted earlier the front goes to the very end |
| RoundRobin.RoundsBegin | src/rrsched.cpp:51-65 | when the front starts to execute, with the time recorded and the timer set as notify() does, the rounds begin |
| RoundRobin.TickRotates | src/rrsched.cpp:67-95 | each firing of the timer turns the queue by one place and sets the timer so that the next firing does the same |
| RoundRobin.RoundsRotate | src/rrsched.cpp:67-95 | k rounds turn the queue by k places |
| RoundRobin.EachLeadsOnce | src/rrsched.cpp:67-95 | in n rounds each of n tasks leads exactly once, in queue order, and every n rounds the queue is back |
| RoundRuns.MovedHadItsSlice | src/rrsched.cpp:67-77 | over every run with starts at any time, the timer changes the front's place or insertion time if and only if its slice is positive and it began to execute at least that long before (or at least that long after 0, if it never began), and it was not inserted at this very time |
| RoundRuns.RoundChangesFrontIff | src/rrsched.cpp:67-77 | the same for one round in any state; nothing else in the queue changes |
| RoundRuns.FireSetsTimerIff | src/rrsched.cpp:79-90 | the timer is set again, for the slice of the new front, if and only if the old front had used up its slice and the new one has a slice |
| RoundRuns.RoundsAreDue | src/rrsched.cpp:51-90 | over every run the timer fires when the task that began last, or the front of the last round, has had its slice from then on, and is off otherwise |
| RoundRuns.UnusedSliceEndsRounds | src/rrsched.cpp:67-90 | a run on two processors in which the timer fires before the front has had its slice: it keeps its place, and no further round is due |
| RoundRobin.RRScheduler.IsRoundExpired | src/rrsched.cpp:19-29 | positive slice and at least that long since the task last began to execute, as RoundChangesFrontIff demands |
| RoundRobin.RRScheduler.Notify | src/rrsched.cpp:51-65 | the timer is set for the slice of the task that starts, off without a positive one and off without a task |
| RoundRobin.RRScheduler.RoundExpires | src/rrsched.cpp:67-95 | queue and timer end in the round of RoundChangesFrontIff and TickRotates. The dispatch that follows is the kernel's |
| Dag.ReleasedByLastParent | src/dagnode.cpp:49-61 | an idle child is released by the end of a parent if and only if that was the last parent it waited for |
| Dag.StepKeepsInv | src/dagnode.cpp:78-139 | every event without overlap keeps the precedence invariant |
| Dag.EndKeepsInvIffNoOverlap | src/dagnode.cpp:110-122 | the end of a job keeps it if and only if no child is still busy |
| Dag.BusyChildReleasedTwice | src/dagnode.cpp:110-122 | a run of a source and its child, without overlap up to the last event, whose last event releases the child a second time for its first job |
| Dag.RunKeepsInv | src/dagnode.cpp:78-139 | over every run without overlap the precedence invariant holds |
| Dag.BehindAncestor | src/dagnode.cpp:49-57 | along every path of the graph job indices do not grow, strictly fall below the top while the last node is busy |
| Dag.Precedence | src/dagnode.cpp:78-122 | over every run a node's job index never exceeds any ancestor's, is strictly below while it has a job, and each job index was released exactly once and in order |
| Dag.DagNode.AddChildTask | src/dagnode.cpp:28-31 | the edge is entered on both sides |
| Dag.DagNode.CheckParentsJob | src/dagnode.cpp:49-57 | true exactly when every parent has finished more jobs |
| Dag.DagNode.ActivateChildren | src/dagnode.cpp:58-61 | every child, even one listed twice, gets an arrival exactly when it may be activated |
| Dag.DagNode.OnEndInstance | src/dagnode.cpp:78-109 | the snapshot of all objects ends in the end step of EndKeepsInvIffNoOverlap: the node counts its job before its children are asked, exactly the ready children get an arrival, and no other node changes |
| Dag.DagNode.OnArrival | src/dagnode.cpp:124-139 | starts a job, or buffers the arrival while the buffer holds no more than its size; the next arrival of a source is left to its timer |
| Dag.DagNode.OnFakeArrival | src/task.cpp:321-325 | starts a buffered arrival |
| DagJobs.NodesAreAccounted | src/dagnode.cpp:78-139 | over every run, overlapping or not, and for every node, sources included: arrivals handled equal jobs started plus arrivals buffered plus arrivals dropped; jobs started equal jobs finished, active or overwritten; an idle node with an arrival buffered has a buffered start pending; the buffer holds at most its size plus one; and no more arrivals come than timers fired or parents released |
| DagJobs.StepKeepsAccount | src/dagnode.cpp:78-139 | every event keeps this account |
| RandomGenerator.SplitIsExact | src/randomvar.cpp:47-50 | for every seed no intermediate leaves the signed 32-bit range, and the split value differs from 16807 x by a multiple of M and lies within one M of 0 |
| RandomGenerator.RandomGen.Sample | src/randomvar.cpp:43-54 | the split form returns 16807 x mod M, which is again a seed |
| RandomGenerator.BackAndForth | src/randomvar.cpp:29-32 | multiplication by the inverse of 16807 undoes a step, on either side |
| RandomGenerator.NextIsSeed | src/randomvar.cpp:43-54 | the state never becomes 0 |
| RandomGenerator.NextIsBijection | src/randomvar.cpp:43-54 | every seed has exactly one predecessor among the seeds |
| RandomGenerator.NthIsPower | src/randomvar.cpp:43-54 | the n-th sample is 16807^n times the seed, modulo M |
| StrToken.TrimIsTight | src/strtoken.cpp:20-31 | what is left is the text between the first and the last character that is no space, and nothing else was cut |
| StrToken.RemoveSpaces | src/strtoken.cpp:20-31 | the two erasures, with their wrapped positions, do exactly that |
| StrToken.SplitInstr | src/strtoken.cpp:56-71 | the trimmed texts before each semicolon, and nothing after the last one |
| StrToken.ScanStep | src/strtoken.cpp:108-125 | one iteration of the position arithmetic is one step of the scan: end, separator, closed or unclosed parenthesis |
| StrToken.SplitParam | src/strtoken.cpp:99-134 | the parameters of ParamsAreTrimmed and ParamsOfInside: those of the scan, those of two scans after an unclosed parenthesis, or none when the loop has no end |
| StrToken.ParamsAreTrimmed | src/strtoken.cpp:118-131 | every parameter is empty or starts and ends with a visible character, and is the text of a piece between separators with nothing but spaces cut off its ends |
| StrToken.LoopEndsIff | src/strtoken.cpp:108-125 | the loop ends if and only if the scan from position 0 or the one from position 1 meets no unclosed parenthesis |
| StrToken.LoopsForever | src/strtoken.cpp:112-116 | otherwise the loop guard holds after any number of iterations |
| StrToken.ClosedScanIsDone | src/strtoken.cpp:108-125 | it ends in particular when every opening parenthesis is followed by a closing one |
| RoundTrip.ParamsOfInside | src/strtoken.cpp:99-134 | arguments written with any spaces around them, or spaces alone, are split into exactly the arguments, each trimmed, with an empty parameter more where spaces separate a call from its comma |
| RoundTrip.ReadIsArgsIff | src/strtoken.cpp:111-121 | so exactly the arguments come back if and only if no call but the last is followed by spaces |
| RoundTrip.TokenAndParam | src/strtoken.cpp:73-97 | the token and the text between the parentheses come back, whatever spaces and line breaks are before and after the call |
| RoundTrip.NoTokenIff | src/strtoken.cpp:73-83 | an instruction has no token, and the original throws, if and only if it has no visible character |
| RoundTrip.ParseBare | src/strtoken.cpp:73-97 | an instruction without a parenthesis is all token and has no parameters |
| RoundTrip.ParamOfUnclosed | src/strtoken.cpp:85-97 | with no closing parenthesis behind the first opening one, everything behind it is parameter text, even when a closing one comes before |
| RoundTrip.TrimRender | src/strtoken.cpp:20-31 | trimming a statement takes away some of that white space and nothing else |
| RoundTrip.ParseRenderAll | src/strtoken.cpp:20-134 | for every list of instructions written with white space around statements and arguments, and any text without a semicolon behind them, parsing gives back the tokens and arguments, as ParamsOfInside reads them |
| RoundTrip.InsertCode | src/task.cpp:366-380 | the loop over the statements parses each, and has no result when a token is missing or a parameter list never ends |

## Left out

- The SystemC scheduler, delta cycles and event times in the kernels: pending events fire in any order, which covers every choice of context-switch and migration delays; the times of the notifications (and a stale switch start after the idle return at src/mrtkernel.cpp:285-287) are not modelled.
- The calls of a kernel to a task (`schedule`, `deschedule`) and of a scheduler to its kernel (`dispatch` at the end of `round` and `disableThreshold`): each component is modelled on its own.
- `dispatch(AbsRTTask*)`, `newRun`, `endRun`, `getRunningTasks`, affinities and CPU identities beyond their order.
- The partitioned kernel and scheduler: copies of the single-processor case.
- Earliest-deadline-first schedulers, `SuspendInstr`, the threshold and schedule instructions, kill on deadline miss, interrupts and servers.
- CPU power and voltage levels, output files, console prints, factories, registration and exception classes.
- Random distributions, the float weight of a Pfair task (an exact fraction here), `atof`, and the Pfair quantum loop with its tie-breaking; whether m processors can meet all windows is not decided by this code.
- The width of times and priorities: they are unbounded integers, and the conversion of a saved priority through a double is taken to be exact. The generator and the string positions are modelled with their widths.
- Nested requests, several resources per task, several units, chains of blocked owners, and ending a job before releasing under priority inheritance: the code does not support them, and they are excluded by the events' conditions.
- Deadline events and the response-time record of a task.
- GlobalRuns.GlobalSchedulingAtRest: requires of a run that no task is blocked or killed in the middle of its switch and that dispatch() finds the CPUs it selects guarded. This is sufficient, not necessary. The exact conditions are SoundRuns.StepKeepsOwnershipIff and OwnedThroughoutIffSound for ownership, and SoundRuns.GloballyScheduledIff and ScheduledAfterDispatchIff for global scheduling at rest; TaskOnTwoCpus and IdleCpuAtRest are runs that fail them.
- Selection.DispatchEstablishesInv: requires guarded CPUs; Selection.DispatchKeepsInvIff gives the exact condition.
- GlobalSteps.ArrivalKeepsInv: requires guarded CPUs; Selection.DispatchKeepsInvIff gives the exact condition for the state after the insertion.
- GlobalSteps.BlockKeepsInv: requires guarded CPUs, and a task that is not in the middle of its switch; Selection.DispatchKeepsInvIff gives the exact condition for the state after the suspension.
- MultiKernel.MRTKernel.Dispatch: where the scan runs off the queue, and the original never returns, it returns false with the CPUs posted so far.
- SoundRuns.OwnedThroughoutIffSound: speaks of runs in which every dispatch() ends. What happens after ownership is lost is not modelled.
- EndlessScan.UnguardedNeverEnds: states that the state is owned, not that a run reaches it.
- MultiKernel.MRTKernel.DispatchOn: does not model the delay after which the begin event fires.
- MultiKernel.MRTKernel.OnBeginDispatchMulti: does not model the overhead and the start time of the switch.
- MultiKernel.MRTKernel.OnEndDispatchMulti: does not model the calls to the task and to the scheduler.
- SingleKernel.RTKernel.OnEndDispatch: does not model the call to the current task.
- ReadyQueue.Scheduler.Insert: requires a task that is not queued; inserting a queued one changes its key in place, which has no defined outcome in a `std::set`.
- ReadyQueue.Scheduler.DisableThreshold: does not model the dispatch of the kernel that follows.
- RoundRobin.RRScheduler.RoundExpires: does not model the dispatch of the kernel that follows, and requires a non-empty queue, since the front of an empty one is undefined in the code.
- Migrations.MigrationsAreCounted: says nothing of runs in which ownership is lost.
- TaskJobs.Task.OnArrival: does not model the deadline event, the call to the kernel and the next arrival.
- TaskJobs.Task.OnInstrEnd: leaves the start of the next instruction to JobExecution.JobTask.OnInstrEnd.
- Dag.DagNode.OnArrival: does not model the re-arming of the timer of a source.
- ReadyQueue.Scheduler.Extract: requires a known task to be queued, since erasing an absent element is undefined in the code.
- RoundRobin.EachLeadsOnce: requires positive slices and no arrivals or departures during the rounds.
- ExecInstruction.NeverFinishesEarly: requires starts and stops to happen at full speed, which the code assumes; StartIsTimelyIffFullSpeed and StopAccountsIffFullSpeed give the exact conditions.
- JobExecution.JobExecutesItsCosts: requires full speed and no handler later than a pending end event; ExecTimeIsTimeExecuted needs neither. Blocking in the middle of a job is not among its steps.
- TaskJobs.JobsAreAccounted: requires that no arrival comes between an end and the buffered start it triggers; ArrivalBeforeBufferedStart and JobOverwritten show that it has to.
- Dag.Precedence: requires graph instances not to overlap; EndKeepsInvIffNoOverlap and BusyChildReleasedTwice show that they must not.
- Pfair.LagBound: assumes a schedule that meets the windows; EarliestMeetsWindows gives one for a task on its own, and it is not proved that the quantum loop produces one for several tasks.
- RoundTrip.ParseRenderAll: plain arguments are non-empty words without separators, or a name with one pair of parentheses around a text without parentheses or semicolons; tokens hold no parenthesis or semicolon, and spaces between a token and its parenthesis belong to the token, as in the code. The whole text fits a `std::string`. Line breaks are allowed around statements, not counted as spaces around arguments.
