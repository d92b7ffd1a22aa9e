# Plan-driven scheduling with prediction-failure handling: a verified model

The program runs a *plan*: an array of task records, closed by a sentinel whose two ids are -2, with
free slots (both ids -1) in between. On every timer tick it books the instructions of the tick on the
current task and on the *slot* the task runs in, and then either leaves a finished task, signals a
prediction failure (T2: too late, TM2: too early), or preempts a late task: the stack of tasks at the
cursor that share its process and slot owner is rotated, in place, to just before the next task of the
same process and from then on runs in that task's slot.

The model has three layers.

* **The arrays.** `Scheduler.Plan` is the plan as a class over a task array and a process array,
  `SignalRing.SignalBuffer` the ring buffer of signals, and the methods of `Parser`, `Checkers`,
  `Substitution`, `FullRun` and `Loading` work on them with the program's own loops.
* **The step functions.** `Model` states one tick as a function on snapshots (`State`) of the plan,
  `PlanText` what a text means as a plan. `Thresholds` holds the arithmetic, with the constants of
  config.h in `Config`. Each method of the first layer is proved to do to the snapshot exactly what its
  step function says, so that the theorems about the functions are theorems about the methods.
* **The theorems.** `Invariant.Inv` is what every tick keeps: the layout of the list (`Layout`), the
  books (`Accounting`), the progress of the tasks (`Progress`) and the range of the stress counter.
  `Invariant.Run` is a run of any number of ticks, `Invariant.Fresh` a plan right after parsing. The
  results over whole runs are in `FullRun`, `Termination`, `ProcessOrder`, `Overtaking`,
  `PreemptionBound`, `Stress`, `Lateness` and `FreeSlots`; unless they say otherwise they hold of every
  run of every fresh plan. `Decisions` and `Effects` tell a single tick without the step functions: what
  it decides and what it changes, in the fields of the plan before it and in plain numbers. `Loading` closes the circle: the text of a well-formed plan is parsed into a
  fresh plan.

## The main results

1. **Slot ownership.** In every reachable state the slot owner of an unfinished task is an unfinished
   task of the same process at or behind it, so none of the three lookups by slot owner of a tick comes
   back empty
   (`FullRun.OwnersAreAhead`, `FullRun.TickLookupsSucceed`).
2. **Exact books.** For the plan and for each process, `instructions_retired` is the real length of its
   finished tasks plus what is booked on the slots of its unfinished ones; and what is booked on slots is
   what tasks have run (`FullRun.BooksAreExact`, `FullRun.WorkIsConserved`).
3. **Termination.** A plan reaches its sentinel within the sum of max(1, ceil(real / INS_PER_TICK)) ticks
   over its tasks, and every task is finished once. The tick counter at the end of the whole program is at
   most that sum, and exactly it unless the plan's status says that a task was cut short
   (`Termination.FreshPlanEnds`, `Termination.EverythingFinishedAtTheEnd`, `Loading.RunPlanText`).
4. **Preemption.** The two searches fit together, the in-place loops are a rotation, and a preemption
   changes nothing else (`Model.StackFitsSlot`, `Scheduler.Plan.RotateTasks`, `Checkers.PreemptionChanges`).
5. **Order and number of preemptions.** For every plan, a process is preempted at most as often as its
   tasks have later runs of the process to move to, and a tick keeps the order of all processes if and
   only if it moves nothing or the whole leading run (`PreemptionBound.PreemptionsUseHops`,
   `Overtaking.TickKeepsOrderIff`); there is a run that breaks the order (`Overtaking.OrderCanBreak`). In
   plans in which a process has two neighbouring tasks at most in a run that closes the plan
   (`ProcessOrder.Separated`), no process ever sees its tasks reordered, and it is preempted less often
   than it has tasks (`ProcessOrder.OrderIsKept`, `ProcessOrder.PreemptionsAreBounded`).
6. **Decisions.** Exactly when a tick signals T2 or TM2, exactly when it preempts its task or cuts it short
   (whosever slot the task runs in), and the exact stress it leaves, all in plain numbers
   (`Decisions.SignalsExactly`, `Decisions.T1Exactly`, `Decisions.StressExactly`). Over runs, T2 signals are at least
   3000 ticks apart as long as the task was not preempted more than five times, and the pause ends: ticks without
   a signal or a preemption lower the stress to zero one by one (`Stress.T2RateLimit`, `Decisions.StressSinks`).
   A task over its t2 in its own slot is preempted, or cut short, in the same tick (`Stress.T2TaskMeansT1`).
7. **Lateness.** From any state on and for any number of ticks, as long as no signal clears it, the
   lateness of the plan and of each process grows by exactly the overruns of the tasks left behind, less
   what free slots take off; only signals of the process itself clear a process's lateness, and after one
   it counts from zero (`Lateness.LatenessIsOverrun`, `Lateness.LatenessSinceSignal`). In no run of a plan
   whose entries all have a length does a free slot fail to lower the lateness, and if only its free slots
   have one, the assertion on that is never the first to fail (`FreeSlots.SlotAssertionNeverFails`,
   `FreeSlots.SlotAssertionIsNeverFirst`).
8. **Effects.** For each kind of tick, every field of every entry of the list afterwards
   (`Effects.CompletedEntry`, `Effects.ContinuedEntry`, `Effects.NoSlotEntry`, `Effects.PreemptedEntry`), with what a
   signal rescales (`Effects.SignalChanges`); in the table of processes only lateness and retired ever change
   (`Effects.TickKeepsTable`).
9. **Parsing.** Reading a printed plan gives the plan back, with its aggregates
   (`PlanText.PlanRoundTrip`, `PlanText.TableAt`, `PlanText.PlanLengthIsSumOfParts`).

## Where the code differs from what it says

* t1 does not depend on `T1_SIGMA`: the maximum and the minimum are the same, planned + 3 ticks
  (threshold_checking.c:22-31); `Thresholds.Ladder` says so.
* The percentages 125 and 175 are used as factors (threshold_checking.c:23, 65), so t2 is 175 times the
  plan once that is more than the plan and 13 ticks (`Thresholds.TaskLimits`).
* tm2 always reschedules process 0 (prediction_failure_signaling.c:51).
* A free slot charges the length of the first entry of the whole list, not its own
  (pb-scheduler.c:167-171). The assertion that lateness falls then (pb-scheduler.c:173) holds in a call
  exactly if that length is positive. In plans whose entries all have a length it never fails. If the free
  slots have a length it is never the first to fail: a first entry of no length would be a task that has
  failed the assertion on tm2 (threshold_checking.c:175). With a free slot of no length it can fail first:
  in the fourth tick of the plan `1;0,0;;;0,0,1,50000000;-1,-1,0,0;0,1,1,1;` a preemption brings that slot
  to the front (`FreeSlots.SlotAssertionHoldsIff`, `FreeSlots.SlotAssertionNeverFails`,
  `FreeSlots.SlotAssertionIsNeverFirst`, `FreeSlots.SlotAssertionCanFail`).
* `clear_preemption` gets a pointer to the place that the substituted task was taken from; it clears the
  task that moved up into that place (`Substitution.ClearingMissesTheSubstitute`).
* The last process can never be chosen to fill an unallocated slot when the table is full, because its
  candidate is overwritten by the end mark (pb-scheduler.c:235); `Substitution.Candidate` excludes it.
* The assertion that tm2 is below the plan holds exactly from a plan of two instructions on, the one
  that the node's tm2 is negative exactly from five on (`Thresholds.Ladder`, `Thresholds.NodeLimits`).

## Model

| member | source | states |
|---|---|---|
| Thresholds.Ladder | threshold_checking.c:20-72 | planned < t1 < t2 for every plan, t1 is exactly planned + 3 ticks, tm2 is at least 1, and below the plan exactly from two instructions on |
| Thresholds.TaskLimits | threshold_checking.c:60-72 | what the nested minima and maxima of t2 and tm2 come down to for every plan: 13 ticks above or 175 times, 10 ticks below but at least 1 |
| Thresholds.NodeLimits | threshold_checking.c:149-157 | the node limits as a tenth of the plan corrected for stress (at least a second a process) and a fifth of the plan; the signs that the program asserts, with the exact bound |
| Thresholds.CompletionIsAPercentage | process.c:51-58 | completion is never above 100, and its assertion holds if and only if retired * 100 > -length |
| Thresholds.AllowedBufferIsAShare | threshold_checking.c:124-132 | for a buffer of either sign the allowed buffer lies between nothing and the process's full share, and is the full share once its planned length has been retired |
| Thresholds.T2ProcessIsMonotone | threshold_checking.c:94-122 | check_t2_process fires only for a process more than a second and more than 110 plans late, and keeps firing for a later process or less stress |
| Thresholds.StretchKeepsT1BelowT2 | prediction_failure_signaling.c:59-80 | t1 of the plan after a T2 stretch is at most the t2 before it, for every plan |
| Thresholds.RescaledBrackets | prediction_failure_signaling.c:67-76 | a T2 stretches by 5 percent and a TM2 shrinks by 5 percent, rounded down; only plans of at most one instruction become zero |
| Config.CDivTruncates | threshold_checking.c:225 | the division of the thresholds goes toward zero for either sign |
| Model.IndexFrom | plan.c:68-78 | the lookup gives the first entry with the id before the sentinel, nothing if there is none |
| Model.StackFitsSlot | prediction_failure_handling.c:36-46 | whenever a slot is found, the stack ends before it, the entry behind the slot is of the same process and the rotation is well formed |
| Model.RotateAt | prediction_failure_handling.c:139-159 | entry by entry where the rotated list comes from, and that only moved entries change, in their slot owner |
| Model.RotatePrefix | prediction_failure_handling.c:149-159 | what lies behind the insertion slot has no influence on a rotation |
| Model.RotatedParts | prediction_failure_handling.c:149-159 | the three stretches that the loops of move_tasks leave behind make up the rotation |
| Layout.SlotLookupSucceeds | plan.c:34-39 | under the ownership invariant the slot booked on exists, is unfinished, and is of the current process |
| Layout.RotateOrdered | prediction_failure_handling.c:132-163 | a rotation keeps distinct ids, owners ahead and free slots apart |
| Layout.SkipIfFreeLaidOut | pb-scheduler.c:158-175 | one skip is enough: behind a free slot the cursor is on a task or on the sentinel |
| Layout.PreemptOrdered | prediction_failure_handling.c:30-52 | a preemption keeps the ownership invariant with and without a slot to go to |
| Accounting.RetireBooks | plan.c:30-43 | booking a tick on whatever slot keeps plan, process and slot books equal |
| Accounting.RotateTotals | prediction_failure_handling.c:132-163 | a rotation moves no weight across the cursor and loses none, whatever is summed |
| Accounting.SettleBooks | pb-scheduler.c:58-80 | the surplus taken back on finishing is exactly what was booked on the slot beyond the real length, so the books stay balanced when the cursor moves on |
| Accounting.PreemptBooks | prediction_failure_handling.c:30-62 | a preemption keeps the books, also on the no-slot path |
| Progress.TickedProgress | task.c:16-29 | a tick's instructions leave the current task finished within one tick of its real length, or unfinished below it |
| Progress.ForceFinishProgress | prediction_failure_handling.c:56-62 | the no-slot path runs the task exactly to its real length |
| Invariant.TickKeeps | pb-scheduler.c:26-48 | every tick keeps the whole invariant, and a tick is always taken with the cursor on a task or the sentinel |
| Invariant.FreshInv | parse_plan.c:99-149 | every plan as it comes from the parser has the invariant |
| Invariant.FinishKeeps | pb-scheduler.c:124-137 | leaving a task keeps the invariant; it is left only when it is done |
| Steps.CompletedStep | pb-scheduler.c:124-137 | a completing tick keeps the list and moves the cursor past the task and at most one free slot |
| Steps.PreemptedStep | prediction_failure_handling.c:30-52 | a preempting tick changes the layout of the list by exactly one rotation, whatever was signaled before |
| Steps.StayingStep | pb-scheduler.c:94-117 | any other tick keeps list and cursor |
| Steps.RotateIdentities | prediction_failure_handling.c:132-163 | the rotation is a permutation of the entries |
| Steps.RunKeepsIdentities | pb-scheduler.c:26-48 | over a run of any length no task is lost, duplicated or altered |
| FullRun.OwnersAreAhead | prediction_failure_handling.c:132-163 | in every reachable state each unfinished task has its slot owner at or behind it, of the same process |
| FullRun.TickLookupsSucceed | threshold_checking.c:44-49 | the lookups of the booking, of the T1 check and of the no-slot booking of the same tick all find an unfinished task of the process |
| FullRun.BooksAreExact | pb-scheduler.c:56-86 | the retired counter of the plan and of each process is exact after any number of ticks |
| FullRun.WorkIsConserved | plan.c:30-43 | for each process, what is booked on its slots is what its tasks have run, after any number of ticks |
| FullRun.CursorIsSettled | pb-scheduler.c:124-134 | between ticks the cursor is never on a free slot, the current process follows it, and it counts finished tasks and passed free slots |
| FullRun.RunToSentinel | main.c:591-597 | the tick loop ends on the sentinel as a run within the ticks that the unfinished tasks still need, and the tick counter has grown by its length |
| Termination.TickPotential | pb-scheduler.c:26-48 | each tick takes exactly one tick off what the tasks still need; the no-slot path may take more |
| Termination.RunEndsExactly | pb-scheduler.c:26-48 | without the no-slot path the sentinel is reached after exactly the ticks needed |
| Termination.FreshPlanEnds | pb-scheduler.c:26-48 | a fresh plan ends within the sum of max(1, ceil(real / INS_PER_TICK)), whatever is preempted or rescheduled |
| Termination.EverythingFinishedAtTheEnd | pb-scheduler.c:124-137 | at the sentinel every task is finished, ran its real length and at most a tick more, and tasks_finished counts them all |
| Termination.CursorCounts | pb-scheduler.c:128-168 | index_cur_task is tasks_finished plus the free slots passed |
| Termination.TickClock | prediction_failure_handling.c:56-62 | a tick counts itself, and the plan is marked as finished by the no-slot path and nothing else |
| Termination.StatusTellsNoSlot | prediction_failure_handling.c:56-62 | after a run of any length the status tells whether the no-slot path was ever taken |
| Termination.UnmarkedEndIsExact | pb-scheduler.c:26-48 | a run that ends without the mark took exactly the ticks needed |
| ProcessOrder.StackIsWholeRun | prediction_failure_handling.c:108-122 | if neighbours of a process share their owner, the stack is the whole leading run |
| ProcessOrder.RotateMergesRuns | prediction_failure_handling.c:132-163 | a preemption makes one run of the process out of two and leaves all other runs alone |
| ProcessOrder.RotateKeepsOrder | prediction_failure_handling.c:132-163 | moving a whole run reorders no process |
| ProcessOrder.GroupsAreKept | prediction_failure_handling.c:132-163 | in every reachable state neighbours of a process share their owner and guests are in the first run of their process |
| ProcessOrder.PreemptionsAreBounded | prediction_failure_handling.c:30-52 | over a run of any length a process is preempted at most as often as it has tasks, less one |
| ProcessOrder.OrderIsKept | prediction_failure_handling.c:205-220 | after any number of ticks every process has its tasks in the plan's order |
| ProcessOrder.OrderCheckIsStable | prediction_failure_handling.c:205-220 | order_is_kept answers after any number of ticks what it answered for the fresh plan |
| Overtaking.PreemptionKeepsOrderIff | prediction_failure_handling.c:78-122 | for any plan: a preemption keeps the order of every process if and only if its stack is the whole leading run |
| Overtaking.TickKeepsOrderIff | prediction_failure_handling.c:108-122 | for any plan: a tick keeps the order of every process if and only if it preempts nothing or its stack is the whole leading run |
| LateTask.CalmTick | threshold_checking.c:36-56 | in a plan in which nothing is late, a tick of a task in its own slot below t2 raises no signal and preempts it if and only if it reaches t1 |
| Overtaking.OrderCanBreak | prediction_failure_handling.c:108-122 | a fresh plan whose fourth tick preempts a task behind its neighbour, so that order_is_kept answers 1 before it and 0 after it |
| PreemptionBound.RotateHops | prediction_failure_handling.c:132-163 | for any plan: a preemption takes at least one from the hops of its process and adds none to any other |
| PreemptionBound.PreemptionsUseHops | prediction_failure_handling.c:30-52 | for any plan and runs of any length: the preemptions of a process are at most the later runs of the process, summed over its tasks |
| PreemptionBound.PreemptionsOfAnyPlan | prediction_failure_handling.c:30-52 | for any plan: the preemptions of a process are at most its tasks times its runs less one |
| Stress.NextStress | pb-scheduler.c:83-117 | a tick lowers the stress by at most one and leaves it at the top after a T2 signal; `Decisions.StressExactly` says when it is lowered |
| Stress.T2RateLimit | pb-scheduler.c:94-117 | two T2 signals, the later one for a task not preempted too often, are at least 3000 ticks apart |
| Stress.TickLogs | prediction_failure_signaling.c:20-52 | a tick logs at most one signal, with the task, process and tick it belongs to, exactly when its guards hold; `Decisions.SignalsExactly` tells the guards in numbers |
| Stress.T2TaskMeansT1 | pb-scheduler.c:94-106 | a task over its t2 in its own slot is preempted (or cut short) in the same tick although the signal may have stretched its plan |
| Stress.CompletionHolds | process.c:51-58 | in every run the completion of a process with a plan is between 0 and 100 wherever a tick computes it: behind its booking, behind a signal, and between ticks |
| Decisions.SignalsExactly | threshold_checking.c:60-241 | a tick that finishes its task logs a TM2 signal if and only if the slot is under tm2 or the plan is early by its limit; any other tick logs a T2 signal if and only if stress is 0 or the task was preempted more than five times, and task, process or plan exceed their limits; every limit is a number |
| Decisions.T1Exactly | threshold_checking.c:36-56 | a tick that does not finish its task preempts it, or cuts it short, if and only if the slot it runs in, which for a moved task is that of another one, holds the owner's plan and three ticks more, the plan being the one after a T2 signal of this tick |
| Decisions.StressExactly | pb-scheduler.c:83-116 | the stress after any tick: 3000 after a signal, one less than before down to 0 without one, and not lowered if the task was preempted or cut short |
| Decisions.StressSinks | pb-scheduler.c:83-116 | over a run of any length without signal or preemption the stress sinks by one a tick until it is zero, so the pause for T2 ends |
| Effects.RetireEntry | task.c:16-29 | a booking changes two entries, the current one in its own counters, lateness and state, and the slot owner in its slot counter, and no other |
| Effects.SignalChanges | prediction_failure_signaling.c:20-81 | a T2 takes the entries of the current process, a TM2 those of process 0, from the cursor to the sentinel to exactly 105 and 95 percent, rounded down; nothing else changes but the log, the stress and the two latenesses |
| Effects.CompletedEntry | pb-scheduler.c:124-137 | every entry after a tick that finishes its task: booking, TM2 rescaling, the next task running, a free slot passed |
| Effects.ContinuedEntry | pb-scheduler.c:94-116 | every entry after a tick that goes on with its task: booking and T2 rescaling alone |
| Effects.NoSlotEntry | prediction_failure_handling.c:56-62 | every entry after a tick that cuts its task short: booking, T2 rescaling, the preemption counted and the missing instructions booked on task and slot owner |
| Effects.PreemptedEntry | prediction_failure_handling.c:30-52 | every entry after a tick that moves its task: the booked and rescaled entry it came from, with the counter of the preempted task, the new owner of the moved ones and the state of the new current task |
| Effects.TickKeepsTable | pb-scheduler.c:26-48 | no tick changes a process's id, remaining tasks, buffer or plan length, nor the plan's length; tasks_finished counts exactly the ticks that finish their task |
| Lateness.TickAccounted | pb-scheduler.c:56-84 | in any tick lateness grows by the overrun of the task left behind, from zero if a signal was raised; a passed free slot takes the first entry's length off the plan's |
| Lateness.LatenessIsOverrun | plan.c:84-93 | from any state and for any number of ticks without a signal that clears it, the lateness of a process grows by the overruns of its tasks left behind and that of the plan by all overruns less the charge for each free slot |
| Lateness.LatenessSinceSignal | plan.c:157-160 | after a signal that clears it and until the next, the same law counts from zero at the tick of the signal |
| FreeSlots.TickFromSkipPoint | pb-scheduler.c:104-134 | where in a tick handle_free_slot is entered, and that the tick ends with it |
| FreeSlots.SlotAssertionHoldsIff | pb-scheduler.c:158-175 | in one call, the assertion that lateness falls holds if and only if the first entry has a length |
| FreeSlots.SlotAssertionNeverFails | pb-scheduler.c:158-175 | in a run of any length of a plan whose entries all have a length, the assertion never fails |
| FreeSlots.TickMeetsSlotAssertion | pb-scheduler.c:56-85 | if free slots have a length, a tick whose finished task meets the assertion on tm2 meets the one at a free slot, and the free slots keep what is needed for the next tick |
| FreeSlots.SlotAssertionIsNeverFirst | pb-scheduler.c:158-175 | over a run of any length of a plan whose free slots have a length, the assertion holds as long as no task has failed the one on tm2 |
| FreeSlots.SlotAssertionCanFail | pb-scheduler.c:158-175 | a fresh plan with a free slot of no length whose fourth tick fails it, before any task is finished |
| Scheduler.Plan.FindTaskWithTaskId | plan.c:68-78 | the loop finds the first task with the id, or nothing |
| Scheduler.Plan.UpdateRetiredInstructionsTask | task.c:16-29 | the current task's counters, lateness and state after a booking, and nothing else |
| Scheduler.Plan.BookOnSlot | plan.c:34-39 | the booking goes to the slot owner, or to the task itself in its own slot |
| Scheduler.Plan.RetireInstructions | plan.c:30-43 | an amount that is not negative is booked on the task, its slot, its process and the plan |
| Scheduler.Plan.UpdateRetiredInstructions | plan.c:19-44 | the plan after instructions were retired; a negative amount only lowers the node's lateness |
| Scheduler.Plan.UpdateCurProcess | plan.c:51-60 | the entry under the cursor runs and the current process follows it |
| Scheduler.Plan.HandleFreeSlot | pb-scheduler.c:158-175 | the cursor passes the slot and the first entry of the list is charged |
| Scheduler.Plan.SwitchTask | pb-scheduler.c:124-137 | the next task is entered, a free slot in front of it passed |
| Scheduler.Plan.BalanceLateness | plan.c:157-160 | the plan and the current process are on time again |
| Scheduler.Plan.Reschedule | prediction_failure_signaling.c:59-81 | exactly the entries of one process from the cursor to the sentinel are rescaled, then lateness is cleared |
| Scheduler.Plan.Signal | prediction_failure_signaling.c:20-52 | the signal joins the history, stress is at its top, the rescheduling is done |
| Scheduler.Plan.FindSlotToMoveTo | prediction_failure_handling.c:72-99 | the two loops find the place just before the next task of the process behind its leading run |
| Scheduler.Plan.GetStackSizePreemptedTasks | prediction_failure_handling.c:108-122 | the loop counts the tasks at the cursor that share process and slot owner |
| Scheduler.Plan.SavePreemptedTasks | prediction_failure_handling.c:139-147 | the stack is copied and handed to its new slot owner |
| Scheduler.Plan.MoveForward | prediction_failure_handling.c:149-153 | the entries up to the insertion slot move forward by the size of the stack |
| Scheduler.Plan.WritePreemptedTasks | prediction_failure_handling.c:155-159 | the saved stack fills the places in front of the insertion slot's successor |
| Scheduler.Plan.RotateTasks | prediction_failure_handling.c:132-159 | the in-place loops together are the rotation, although the first one reads beyond the insertion slot |
| Scheduler.Plan.MoveTasks | prediction_failure_handling.c:132-163 | the rotated list with the new current task entered |
| Scheduler.Plan.HandleNoPreemptionSlotFound | prediction_failure_handling.c:56-62 | the missing instructions are booked at once and the plan counts as finished |
| Scheduler.Plan.PreemptCurTask | prediction_failure_handling.c:30-52 | the preemption is counted and the stack moved, or the task cut short |
| Scheduler.Plan.T1Transgressed | threshold_checking.c:36-56 | the check is made on the slot owner |
| Scheduler.Plan.ScheduleTimerTick | pb-scheduler.c:94-117 | T2 check, then T1 check on the state after it, stress only lowered without a preemption |
| Scheduler.Plan.SettleCounters | pb-scheduler.c:75-84 | lateness and retired counters of plan and process after a finished task |
| Scheduler.Plan.ScheduleTaskFinished | pb-scheduler.c:56-86 | TM2 check, counters, next task |
| Scheduler.Plan.RunTimerTick | pb-scheduler.c:26-48 | a tick on the arrays is exactly one step of a run |
| SignalRing.SignalBuffer.AddSignal | prediction_failure_signaling.c:97-103 | the history grows by the signal and the ring still answers for its latest hundred |
| SignalRing.SignalBuffer.GetSignal | prediction_failure_signaling.c:111-121 | the answer is the k-th latest signal of the whole history, the zero signal if there were fewer |
| SignalRing.SignalBuffer.NumberCaused | prediction_failure_signaling.c:141-143 | the counter is the length of the history |
| Checkers.OrderIsKept | prediction_failure_handling.c:205-220 | the function answers 1 if and only if ids do not decrease along the list within any process |
| Checkers.NoIdIsDuplicated | prediction_failure_handling.c:227-246 | the function answers 1 if and only if the tasks' ids are distinct |
| Checkers.CalculateLengthPlan | plan.c:145-154 | the sum of the lengths of all entries |
| Checkers.PreemptionPreserves | prediction_failure_handling.c:46-47 | a preemption keeps ids distinct, loses no entry and keeps the length of the plan |
| Checkers.PreemptionChanges | prediction_failure_handling.c:30-52 | for every entry, all that a preemption changes: slot owners of the moved, the counter of the preempted, the state of the new current task |
| Checkers.InsertionSlotMeaning | prediction_failure_handling.c:72-99 | -2 if and only if every later task of the process is in its leading run, else the place just before the first one that is not |
| Checkers.StackSizeMeaning | prediction_failure_handling.c:108-122 | a number is the size of the stack if and only if so many entries from the cursor on share process and slot owner with the current task and the next one does not |
| Substitution.NextPlaceMeaning | pb-scheduler.c:203-236 | the candidate of a process is its first task; tasks planned with -1 are passed over, and the last of them is taken if there are no others |
| Substitution.FindNextTaskForAllProcesses | pb-scheduler.c:203-236 | for each process but the last its candidate, or the mark for none, on any plan |
| Substitution.PickLatest | pb-scheduler.c:259-270 | the latest process among those whose next task was preempted, none if none of them is late |
| Substitution.FindSubstitutionTask | pb-scheduler.c:243-275 | null if and only if no process with a preempted candidate is late, else the candidate of one with the greatest positive lateness |
| Substitution.ReplaceUnallocatedSlot | plan.c:130-141 | the free slot is dropped, the task put first, the order of all others kept |
| Substitution.HandleUnallocatedSlot | pb-scheduler.c:183-194 | the slot is filled by such a task, or there is no candidate and nothing happens before the null pointer |
| Substitution.ClearingMissesTheSubstitute | pb-scheduler.c:192-193 | the task brought forward keeps its preemption mark; the entry that moved up behind it loses its own |
| Substitution.SubstitutionKeepsLayout | pb-scheduler.c:183-194 | a substitution keeps ids distinct and owners ahead, and keeps free slots apart if and only if the task taken away did not stand between two of them |
| Numbers.NumberRoundTrip | parse_plan.c:185-193 | reading a printed number gives it back and stops at the separator, for every 64-bit value |
| Numbers.StrtollMeaning | parse_plan.c:185-193 | what is read from any text: behind blanks and at most one sign the decimal number, saturated at the limits of a long, and nothing at all if there is no digit |
| Numbers.AnyTextIsWritten | parse_plan.c:185-193 | every text has such a form, so the meaning is that of all texts |
| PlanText.PlanRoundTrip | parse_plan.c:25-38 | parsing the text of any plan that fits gives the plan back, whatever the arrays held before and whatever follows the last task without a semicolon; each entry has the four numbers of its line and nothing run, preempted or late |
| PlanText.MetaRoundTrip | parse_plan.c:48-97 | the meta section gives the processes and puts the end mark behind them |
| PlanText.TasksRoundTrip | parse_plan.c:99-113 | the tasks section gives the tasks, field by field, puts the sentinel behind them and leaves the rest of the array alone |
| PlanText.TableAt | parse_plan.c:122-149 | each process's num_tasks_remaining and length_plan are the count and the sum over its own tasks; behind the processes is the end mark and behind that what was there before |
| PlanText.PlanLengthIsSumOfParts | parse_plan.c:37 | instructions_planned is the sum of all processes' lengths and of the free slots |
| Parser.ParseNextNumber | parse_plan.c:185-193 | the loop and strtoll on any text; failure stands for running off the text |
| Parser.ParseMetaLoop | parse_plan.c:61-91 | the loop stores the processes of the text into the array, on any text |
| Parser.ParseMetaSection | parse_plan.c:48-97 | the process array and the count after the meta section, on any text |
| Parser.CountTasks | parse_plan.c:153-162 | the number of semicolons |
| Parser.ParseNextTask | parse_plan.c:122-149 | one task is stored, with the four numbers of the text and all other fields as for an entry that never ran, and its process credited, on any text |
| Parser.ParseAllTasks | parse_plan.c:105-109 | the loop stores the tasks of the text into the array, on any text |
| Parser.ParseTaskSection | parse_plan.c:99-113 | the task array with its sentinel, on any text |
| Parser.ParsePlanText | parse_plan.c:25-39 | the whole plan after parsing any text, with cursor and length set; failure exactly where the program leaves its arrays or the text |
| Parser.NumberProcessesInPlan | plan.c:113-121 | the loop stops at the first end mark |
| Loading.EndMarkCountsProcesses | plan.c:113-121 | for a parsed plan that mark is at the number of processes |
| Loading.LoadedIsFresh | parse_plan.c:25-39 | a well-formed plan is fresh after parsing |
| Loading.LoadPlan | parse_plan.c:25-39 | parsing the text of a well-formed plan succeeds and gives a valid plan, each entry with the numbers of its line, counters and lateness zero, waiting in its own slot |
| Loading.FreeSlotsAreCharged | pb-scheduler.c:158-175 | in no run of a well-formed plan does the assertion at a free slot fail |
| Loading.RunPlanText | main.c:582-603 | from the text of a well-formed plan to the end of its run: the tick counter is at most the sum of its lines' ticks, and that sum unless the plan is marked as finished; every line is there and every task was run to its end |

## Left out

* Logging, printing, file access, module parameters, the exported-symbol macros, the Python and shell
  helpers and the build files.
* `start_run` (pb-scheduler.c:144-149): it waits for the plan status that only the no-slot path sets.
* `get_retired_instructions` (pmu_interface.c:12-14) is the constant `INS_PER_TICK`, as in the source.
* `get_all_ids_from_plan` and `same_ids` (prediction_failure_handling.c:170-203): unused.
* `does_task_turn_late`, `is_process_late` and `update_finished_tasks_in_process`: their results are not
  used by any modelled step.
* Pointers are indices. A null pointer that the program would follow is a result of its own: -1 for a
  lookup, `filled == false` in `Substitution.HandleUnallocatedSlot`.
* 64-bit overflow: integers are unbounded, except in `strtoll`, which saturates.
* The unused allocation in parse_meta (parse_plan.c:70-71).
* Accesses outside the arrays: a parse fails (and nothing is said about the arrays) where the program would write or read outside; the over-read
  of move_tasks yields an arbitrary record, also where it would be behind the array.
* A free slot whose charge is zero right before the sentinel, which needs a plan with an entry of no
  length: the program then books zero instructions on the sentinel's slot owner and on the process at
  index -2. The model books nothing on a process outside the table and nothing on an owner that is not
  found.
* `assert(no_id_is_duplicated(p))` (prediction_failure_handling.c:47) is not executed by
  `Scheduler.Plan.PreemptCurTask`; `Checkers.PreemptionPreserves` proves what it asserts. The size assertion
  of pb-scheduler.c:28 is what `Parser.ParseTaskSection` ensures of the number of tasks it stores.
* Assertions on tiny plans (threshold_checking.c:155, 175-176, 227; pb-scheduler.c:173) do not stop the
  model; `Thresholds` and `FreeSlots` give the exact conditions under which they hold.
* The enabling switches of the thresholds (config.h:57-67) are all on.
- Checkers.NoIdIsDuplicated: asks for ids below 400, because the program marks them in an array of that size.
- SignalRing.SignalBuffer.GetSignal: asks for an index below the size of the buffer, as the program asserts.
- Stress.T2RateLimit: says nothing about tasks preempted more than five times, for which the program skips the stress check.
- ProcessOrder.PreemptionsAreBounded: needs separated plans; `PreemptionBound.PreemptionsUseHops` is the bound for all others.
