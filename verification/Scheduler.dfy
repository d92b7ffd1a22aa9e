/**
 * The scheduler on its arrays, as the program runs it. Every method is proved to do to the plan's
 * snapshot what the function of the same step in Model.dfy says.
 */
module Scheduler {
  import opened Config
  import opened Entities
  import opened Thresholds
  import opened Model
  import opened SignalRing

  class Plan {
    var numProcesses: int
    var numTasks: int
    const processes: array<Process>
    const tasks: array<Task>
    var curTask: int          // where the pointer cur_task points
    var indexCurTask: int
    var curProcess: int       // where the pointer cur_process points
    var lateness: int
    var instructionsRetired: int
    var instructionsPlanned: int
    var status: PlanStatus
    var tickCounter: int
    var tasksFinished: int
    var stress: int
    const signals: SignalBuffer
    ghost var end: nat        // where the sentinel is

    /** The zeroed plan that a text is parsed into (main.c:588). */
    constructor ()
      ensures Sized() && fresh(processes) && fresh(tasks) && fresh(signals) && fresh(signals.ring)
      ensures lateness == instructionsRetired == stress == 0 && status == OnPlan && signals.history == []
    {
      numProcesses, numTasks, curTask, indexCurTask, curProcess := 0, 0, 0, 0, 0;
      lateness, instructionsRetired, instructionsPlanned, tickCounter, tasksFinished, stress := 0, 0, 0, 0, 0, 0;
      status := OnPlan;
      processes := new Process[MAX_NUMBER_PROCESSES](_ => Process(0, 0, 0, 0, 0, 0));
      tasks := new Task[MAX_NUMBER_TASKS_IN_PLAN](_ => CreateTask(0, 0, 0, 0));
      signals := new SignalBuffer();
      end := 0;
    }

    /** The array sizes declared in pbs_entities.h. */
    ghost predicate Sized()
      reads this, signals, signals.ring
    {
      && processes.Length == MAX_NUMBER_PROCESSES
      && tasks.Length == MAX_NUMBER_TASKS_IN_PLAN
      && signals.Valid()
    }

    ghost function View(): State
      reads this, processes, tasks, signals
      requires end < tasks.Length
    {
      State(numProcesses, processes[..], tasks[..end + 1], indexCurTask, curProcess, lateness,
            instructionsRetired, instructionsPlanned, status, tickCounter, tasksFinished, stress, signals.history)
    }

    /** A plan: a sentinel closes the task list, and the two cursors are in step. */
    ghost predicate Valid()
      reads this, processes, tasks, signals, signals.ring
    {
      && Sized()
      && end < tasks.Length
      && curTask == indexCurTask
      && Shaped(View())
    }

    /** A loop that looks for id -2 stops at the sentinel. */
    lemma SentinelIsFirstEnd()
      requires Valid()
      ensures tasks[end].id == -2 && tasks[end].pid == -2
      ensures forall i :: 0 <= i < end ==> tasks[i].id != -2 && tasks[i].pid != -2
    {
      forall i | 0 <= i < end ensures tasks[i].id != -2 && tasks[i].pid != -2 {
        assert View().tasks[i] == tasks[i];
        assert GoodEntry(View().tasks[i], processes[..], numProcesses);
      }
      assert View().tasks[end] == tasks[end];
    }

    // ----- plan.c -----

    /** find_task_with_task_id (plan.c:68-78) */
    method FindTaskWithTaskId(id: int) returns (r: int)
      requires Valid()
      ensures r == IndexOf(View().tasks, id)
    {
      ghost var ts := View().tasks;
      SentinelIsFirstEnd();
      var i := 0;
      while tasks[i].id != -2
        invariant 0 <= i <= end
        invariant IndexFrom(ts, id, 0) == IndexFrom(ts, id, i)
        decreases end - i
      {
        assert ts[i] == tasks[i];
        if tasks[i].id == id {
          return i;
        }
        i := i + 1;
      }
      return -1;
    }

    /** pbs_update_retired_instructions_task (task.c:16-29) on the current task */
    method UpdateRetiredInstructionsTask(n: int)
      requires Valid()
      modifies tasks
      ensures View() == old(View()).(tasks := old(View()).tasks[curTask := RetireOnTask(old(View()).Current(), n)])
      ensures Valid()
    {
      ghost var before := View();
      var t := tasks[curTask].(retiredTask := tasks[curTask].retiredTask + n);
      if t.retiredTask > t.planned {
        t := t.(lateness := t.retiredTask - t.planned);
      }
      if t.retiredTask >= t.actual {
        t := t.(lateness := t.actual - t.planned, state := TaskFinished);
      }
      tasks[curTask] := t;
      RetiredOnTaskShaped(before, n);
      assert View().tasks == before.tasks[curTask := t];
    }

    /** The slot that the current task's instructions are booked on (plan.c:34-39). */
    method BookOnSlot(n: int)
      requires Valid()
      modifies tasks
      ensures View() == old(View()).(tasks := View().tasks)
      ensures View().tasks ==
              var ts, o := old(View()).tasks, SlotIndex(old(View()).tasks, indexCurTask);
              if o == -1 then ts else ts[o := ts[o].(retiredSlot := ts[o].retiredSlot + n)]
    {
      ghost var ts := View().tasks;
      var slot := curTask;
      if tasks[curTask].slotOwner != tasks[curTask].id {
        slot := FindTaskWithTaskId(tasks[curTask].slotOwner);
      }
      if slot != -1 {
        tasks[slot] := tasks[slot].(retiredSlot := tasks[slot].retiredSlot + n);
        assert View().tasks == ts[slot := tasks[slot]];
      }
    }

    /** update_retired_instructions_process (process.c:14-16) on the current process */
    method UpdateRetiredInstructionsProcess(n: int)
      modifies processes
      ensures processes[..] == ChargeProcess(old(processes[..]), curProcess, n)
    {
      if 0 <= curProcess < processes.Length {
        processes[curProcess] := processes[curProcess].(retired := processes[curProcess].retired + n);
      }
    }

    /** Instructions are retired on the task, its slot, its process and the plan (plan.c:30-43). */
    method RetireInstructions(n: int)
      requires Valid()
      modifies this, tasks, processes
      ensures Valid() && end == old(end)
      ensures View() == Retire(old(View()), n)
    {
      ghost var before := View();
      RetireKeepsShape(before, n);
      UpdateRetiredInstructionsTask(n);
      BookOnSlot(n);
      assert View().tasks == RetireInTasks(before.tasks, before.cur, n);
      UpdateRetiredInstructionsProcess(n);
      instructionsRetired := instructionsRetired + n;
    }

    /** update_retired_instructions (plan.c:19-44) */
    method UpdateRetiredInstructions(n: int)
      requires Valid()
      modifies this, tasks, processes
      ensures Valid() && end == old(end)
      ensures View() == UpdateRetired(old(View()), n)
    {
      if n < 0 {
        lateness := lateness + n;
        return;
      }
      RetireInstructions(n);
    }

    /** update_cur_process (plan.c:51-60) */
    method UpdateCurProcess()
      requires Valid()
      modifies this, tasks
      ensures Valid() && end == old(end)
      ensures View() == Enter(old(View()))
    {
      ghost var before := View();
      EnterShaped(before);
      tasks[curTask] := tasks[curTask].(state := TaskRunning);
      assert View().tasks == before.tasks[indexCurTask := tasks[curTask]];
      if tasks[curTask].id != -1 {
        curProcess := tasks[curTask].pid;
      } else {
        curProcess := MAX_NUMBER_PROCESSES - 1;
      }
    }

    /** The cursor moves on by one entry (pb-scheduler.c:129-131, 168-170) */
    method AdvanceCursor()
      requires Valid() && View().cur + 1 < |View().tasks|
      modifies this, tasks
      ensures Valid() && end == old(end)
      ensures View() == Advance(old(View()))
    {
      ghost var before := View();
      indexCurTask := indexCurTask + 1;
      curTask := curTask + 1;
      assert View() == before.(cur := before.cur + 1);
      UpdateCurProcess();
    }

    /** handle_free_slot (pb-scheduler.c:158-175) */
    method HandleFreeSlot()
      requires Valid() && View().Current().Free()
      modifies this, tasks, processes
      ensures Valid() && end == old(end)
      ensures View() == SkipFreeSlot(old(View()))
    {
      AdvanceCursor();
      assert tasks[0] == View().tasks[0];
      UpdateRetiredInstructions(-tasks[0].planned);
    }

    /** The guard of handle_free_slot (pb-scheduler.c:107-109, 132-134) */
    method HandleIfFree()
      requires Valid()
      modifies this, tasks, processes
      ensures Valid() && end == old(end)
      ensures View() == SkipIfFree(old(View()))
    {
      assert tasks[curTask] == View().Current();
      if tasks[curTask].id == -1 {
        HandleFreeSlot();
      }
    }

    /** The finished task is counted and left (pb-scheduler.c:128-131). */
    method LeaveTask()
      requires Valid() && View().cur + 1 < |View().tasks|
      modifies this, tasks
      ensures Valid() && end == old(end)
      ensures View() == Advance(old(View()).(tasksFinished := old(View()).tasksFinished + 1))
    {
      ghost var before := View();
      tasksFinished := tasksFinished + 1;
      assert View() == before.(tasksFinished := before.tasksFinished + 1);
      AdvanceCursor();
    }

    /** switch_task (pb-scheduler.c:124-137) */
    method SwitchTask()
      requires Valid() && View().cur + 1 < |View().tasks|
      modifies this, tasks, processes
      ensures Valid() && end == old(end)
      ensures View() == Model.SwitchTask(old(View()))
    {
      ghost var before := View();
      LeaveTask();
      ghost var left := View();
      HandleIfFree();
      SwitchInParts(before, left, View());
    }

    // ----- prediction_failure_signaling.c -----

    /** balance_lateness (plan.c:157-160) */
    method BalanceLateness()
      requires 0 <= curProcess < processes.Length
      modifies this`lateness, processes
      ensures lateness == 0
      ensures processes[..] == old(processes[..])[curProcess := old(processes[curProcess]).(lateness := 0)]
    {
      lateness := 0;
      processes[curProcess] := processes[curProcess].(lateness := 0);
    }

    /** reschedule (prediction_failure_signaling.c:59-81) */
    method Reschedule(kind: SignalKind, targetPid: int)
      requires Valid() && 0 <= curProcess < MAX_NUMBER_PROCESSES
      modifies this, tasks, processes
      ensures end == old(end) && curTask == indexCurTask
      ensures View() == old(View()).(
                tasks := Rescale(old(View()).tasks, old(View()).cur, targetPid, kind),
                lateness := 0,
                processes := old(View()).processes[old(View()).curProcess :=
                  old(View()).processes[old(View()).curProcess].(lateness := 0)])
    {
      ghost var before := View();
      SentinelIsFirstEnd();
      var stretchFactor := if kind == T2 then STRETCH_CONSTANT else SHRINK_CONSTANT;
      var i := curTask;
      while tasks[i].id != -2
        modifies tasks
        invariant curTask <= i <= end
        invariant forall m :: 0 <= m <= end ==>
          tasks[m] == if m < i then Rescale(before.tasks, before.cur, targetPid, kind)[m] else before.tasks[m]
        decreases end - i
      {
        if tasks[i].pid == targetPid {
          tasks[i] := tasks[i].(planned := CDiv(tasks[i].planned * stretchFactor, 100));
        }
        i := i + 1;
      }
      assert View().tasks == Rescale(before.tasks, before.cur, targetPid, kind);
      BalanceLateness();
    }

    /** signal_t2 and signal_tm2 (prediction_failure_signaling.c:20-52) */
    method Signal(kind: SignalKind)
      requires Valid() && 0 <= curProcess < MAX_NUMBER_PROCESSES
      modifies this, tasks, processes, signals, signals.ring
      ensures Valid() && end == old(end)
      ensures View() == RaiseSignal(old(View()), kind)
    {
      ghost var before := View();
      RaiseSignalShaped(before, kind);
      stress := STRESS_RESET;
      assert tasks[curTask] == before.Current();
      var signal := Entities.Signal(tasks[curTask].id, processes[curProcess].pid, tickCounter, kind);
      signals.AddSignal(signal);
      assert View() == before.(stress := STRESS_RESET, signals := before.signals + [signal]);
      Reschedule(kind, if kind == T2 then processes[curProcess].pid else 0);
    }

    // ----- prediction_failure_handling.c -----

    /** find_slot_to_move_to (prediction_failure_handling.c:72-99) */
    method FindSlotToMoveTo(targetPid: int) returns (slot: int)
      requires Valid() && targetPid != -2
      ensures slot == InsertionSlot(View().tasks, View().cur, targetPid)
    {
      ghost var ts := View().tasks;
      SentinelIsFirstEnd();
      var nextSlot, insertionSlot, pid := curTask, indexCurTask, 0;
      while tasks[nextSlot].pid == targetPid
        invariant curTask <= nextSlot == insertionSlot <= end
        invariant RunEnd(ts, curTask, targetPid) == RunEnd(ts, nextSlot, targetPid)
        decreases end - nextSlot
      {
        assert ts[nextSlot] == tasks[nextSlot];
        nextSlot := nextSlot + 1;
        insertionSlot := insertionSlot + 1;
      }
      assert ts[nextSlot] == tasks[nextSlot];
      ghost var e := nextSlot;
      while pid != -2
        invariant e <= nextSlot == insertionSlot <= end + 1
        invariant pid == -2 <==> nextSlot == end + 1
        invariant nextSlot == e ==> tasks[nextSlot].pid != targetPid
        invariant NextOf(ts, e, targetPid) == NextOf(ts, nextSlot, targetPid)
        decreases end + 1 - nextSlot
      {
        assert ts[nextSlot] == tasks[nextSlot];
        pid := tasks[nextSlot].pid;
        if pid == targetPid {
          return insertionSlot - 1;
        }
        nextSlot := nextSlot + 1;
        insertionSlot := insertionSlot + 1;
      }
      return -2;
    }

    /** get_stack_size_preempted_tasks (prediction_failure_handling.c:108-122) */
    method GetStackSizePreemptedTasks() returns (k: int)
      requires Valid() && View().Current().Real()
      ensures k == StackSize(View().tasks, View().cur)
    {
      ghost var ts := View().tasks;
      SentinelIsFirstEnd();
      k := 0;
      var preempted, task := curTask, curTask;
      var samePid, sameSlotOwner := true, true;
      assert ts[preempted] == tasks[preempted];
      while tasks[task].id != -2 && samePid && sameSlotOwner
        invariant preempted <= task == preempted + k <= end
        invariant samePid == (tasks[preempted].pid == tasks[task].pid)
        invariant sameSlotOwner == (tasks[preempted].slotOwner == tasks[task].slotOwner)
        invariant StackEnd(ts, preempted, ts[preempted]) == StackEnd(ts, task, ts[preempted])
        decreases end - task
      {
        assert ts[task] == tasks[task];
        k := k + 1;
        task := task + 1;
        samePid := tasks[preempted].pid == tasks[task].pid;
        sameSlotOwner := tasks[preempted].slotOwner == tasks[task].slotOwner;
      }
      assert ts[task] == tasks[task];
    }

    /** The moved tasks, saved and handed to their new slot owner (prediction_failure_handling.c:139-147). */
    method SavePreemptedTasks(stackSize: int, slotId: int) returns (preempted: array<Task>)
      requires 0 <= curTask && 1 <= stackSize && curTask + stackSize <= tasks.Length
      ensures fresh(preempted)
      ensures preempted[..] == GiveTo(slotId, tasks[curTask..curTask + stackSize])
    {
      preempted := new Task[stackSize](_ => CreateTask(0, 0, 0, 0));
      for i := 0 to stackSize
        modifies preempted
        invariant preempted[..i] == tasks[curTask..curTask + i]
      {
        preempted[i] := tasks[curTask + i];
      }
      ghost var stack := tasks[curTask..curTask + stackSize];
      assert preempted[..] == stack;
      for i := 0 to stackSize
        modifies preempted
        invariant forall m :: 0 <= m < stackSize ==>
          preempted[m] == if m < i then stack[m].(slotOwner := slotId) else stack[m]
      {
        preempted[i] := preempted[i].(slotOwner := slotId);
      }
    }

    /**
     * All other tasks of the rotated part move forward (prediction_failure_handling.c:150-153). The
     * loop reads up to entry insertionSlot - 1 + stackSize, which can lie behind the array: such a
     * read yields an arbitrary record.
     */
    method MoveForward(insertionSlot: int, stackSize: int)
      requires 0 <= indexCurTask && 1 <= stackSize
      requires indexCurTask + stackSize <= insertionSlot < insertionSlot + 1 < tasks.Length
      modifies tasks
      ensures MovedForward(old(tasks[..]), tasks[..], indexCurTask, stackSize, insertionSlot)
    {
      ghost var was := tasks[..];
      for i := indexCurTask to insertionSlot
        modifies tasks
        invariant forall m :: 0 <= m < tasks.Length && (m < indexCurTask || i <= m) ==> tasks[m] == was[m]
        invariant forall m :: indexCurTask <= m < i && m + stackSize < tasks.Length ==> tasks[m] == was[m + stackSize]
      {
        var from := i + stackSize;
        var moved: Task := *;
        if from < tasks.Length {
          moved := tasks[from];
        }
        tasks[i] := moved;
      }
    }

    /** The saved tasks are written to the insertion slot (prediction_failure_handling.c:155-159). */
    method WritePreemptedTasks(preempted: array<Task>, insertionSlot: int)
      requires preempted != tasks && 1 <= preempted.Length <= insertionSlot + 1 < tasks.Length
      modifies tasks
      ensures var was := old(tasks[..]);
              tasks[..] == was[..insertionSlot + 1 - preempted.Length] + preempted[..] + was[insertionSlot + 1..]
    {
      var stackSize := preempted.Length;
      ghost var was := tasks[..];
      var area := insertionSlot + 1 - stackSize;
      for i := 1 to stackSize + 1
        modifies tasks
        invariant forall m :: 0 <= m < tasks.Length ==>
          tasks[m] == if area <= m < area + i - 1 then preempted[m - area] else was[m]
      {
        tasks[area + i - 1] := preempted[i - 1];
      }
      assert tasks[..] == was[..area] + preempted[..] + was[insertionSlot + 1..];
    }

    /**
     * The array work of move_tasks (prediction_failure_handling.c:132-159). Whatever was read from
     * behind the array is overwritten by the moved tasks.
     */
    method RotateTasks(insertionSlot: int, stackSize: int)
      requires 0 <= curTask == indexCurTask && 1 <= stackSize
      requires curTask + stackSize <= insertionSlot < insertionSlot + 1 < tasks.Length
      modifies tasks
      ensures tasks[..] == Rotate(old(tasks[..]), curTask, stackSize, insertionSlot)
    {
      ghost var was := tasks[..];
      var slotId := tasks[insertionSlot + 1].id;
      var preempted := SavePreemptedTasks(stackSize, slotId);
      MoveForward(insertionSlot, stackSize);
      RotatedParts(was, curTask, stackSize, insertionSlot, tasks[..], preempted[..]);
      WritePreemptedTasks(preempted, insertionSlot);
    }

    /** move_tasks (prediction_failure_handling.c:132-163) */
    method MoveTasks(insertionSlot: int, stackSize: int)
      requires Valid()
      requires 1 <= stackSize && View().cur + stackSize <= insertionSlot < insertionSlot + 1 < |View().tasks|
      modifies this, tasks
      ensures Valid() && end == old(end)
      ensures var s := old(View());
              View() == Enter(s.(tasks := Rotate(s.tasks, s.cur, stackSize, insertionSlot)))
    {
      ghost var before := View();
      RotatePrefix(tasks[..], end + 1, curTask, stackSize, insertionSlot);
      RotateTasks(insertionSlot, stackSize);
      assert View() == before.(tasks := Rotate(before.tasks, before.cur, stackSize, insertionSlot));
      RotateShaped(before, stackSize, insertionSlot);
      UpdateCurProcess();
    }

    /** handle_no_preemption_slot_found (prediction_failure_handling.c:56-62) */
    method HandleNoPreemptionSlotFound()
      requires Valid()
      modifies this, tasks, processes
      ensures Valid() && end == old(end)
      ensures View() == ForceFinish(old(View()))
    {
      assert tasks[curTask] == View().Current();
      var missing := tasks[curTask].actual - tasks[curTask].retiredTask;
      UpdateRetiredInstructions(missing);
      status := PlanFinished;
    }

    /** preempt_cur_task behind its counting (prediction_failure_handling.c:37-46) */
    method MoveOrFinish()
      requires Valid() && View().Current().Real()
      modifies this, tasks, processes
      ensures Valid() && end == old(end)
      ensures View() == Relocate(old(View()))
    {
      ghost var before := View();
      ActiveEntry(before);
      assert tasks[curTask] == before.Current();
      var insertionSlot := FindSlotToMoveTo(tasks[curTask].pid);
      var stackSize := GetStackSizePreemptedTasks();
      assert View() == before;
      if insertionSlot == -2 {
        HandleNoPreemptionSlotFound();
        return;
      }
      StackFitsSlot(before.tasks, before.cur);
      assert insertionSlot > indexCurTask;
      MoveTasks(insertionSlot, stackSize);
    }

    /** preempt_cur_task (prediction_failure_handling.c:30-52) */
    method PreemptCurTask()
      requires Valid() && View().Current().Real()
      modifies this, tasks, processes
      ensures Valid() && end == old(end)
      ensures View() == Preempt(old(View()))
    {
      ghost var before := View();
      CountPreemptionShaped(before);
      tasks[curTask] := tasks[curTask].(wasPreempted := tasks[curTask].wasPreempted + 1);
      assert View().tasks == CountPreemption(before).tasks;
      assert View() == CountPreemption(before);
      MoveOrFinish();
    }

    // ----- threshold_checking.c -----

    /** check_t1 (threshold_checking.c:36-56) */
    method T1Transgressed() returns (late: bool)
      requires Valid()
      ensures late == CheckT1(View())
    {
      var toCheck := curTask;
      if tasks[curTask].slotOwner != tasks[curTask].id {
        toCheck := FindTaskWithTaskId(tasks[curTask].slotOwner);
      }
      assert toCheck == SlotIndex(View().tasks, View().cur);
      if toCheck == -1 {
        return false;
      }
      return tasks[toCheck].retiredSlot >= T1Limit(tasks[toCheck].planned);
    }

    // ----- pb-scheduler.c -----

    /** schedule_timer_tick (pb-scheduler.c:94-117) */
    method ScheduleTimerTick()
      requires Valid() && Active(View())
      modifies this, tasks, processes, signals, signals.ring
      ensures Valid() && end == old(end)
      ensures View() == ContinueTask(old(View()))
    {
      ghost var before := View();
      ActiveIsBeforeTheEnd(before);
      AfterT2Active(before);
      var cur, process := tasks[curTask], processes[curProcess];
      assert cur == before.Current();
      if stress <= 0 || CheckT2Preemptions(cur) {
        if CheckT2Task(cur) || CheckT2Process(process, numProcesses, stress)
           || CheckT2Node(numProcesses, instructionsPlanned, stress, lateness) {
          Signal(T2);
        }
      }
      assert View() == AfterT2(before);
      CheckForT1();
    }

    /** What follows a positive T1 check (pb-scheduler.c:106-109). */
    method GiveWay()
      requires Valid() && View().Current().Real()
      modifies this, tasks, processes
      ensures Valid() && end == old(end)
      ensures View() == Model.GiveWay(old(View()))
    {
      PreemptShaped(View());
      PreemptCurTask();
      HandleIfFree();
    }

    method RelaxStress()
      requires Valid()
      modifies `stress
      ensures Valid() && View() == old(View()).(stress := Relax(old(View()).stress))
    {
      if stress != 0 {
        stress := stress - 1;
      }
    }

    /** The part of schedule_timer_tick after its T2 check (pb-scheduler.c:104-117). */
    method CheckForT1()
      requires Valid() && Active(View())
      modifies this, tasks, processes
      ensures Valid() && end == old(end)
      ensures View() == AfterT1(old(View()))
    {
      var late := T1Transgressed();
      if late {
        GiveWay();
      } else {
        RelaxStress();
      }
    }

    /** The updates of schedule_task_finished (pb-scheduler.c:75-84) */
    method SettleCounters(surplus: int)
      requires Valid() && Active(View())
      modifies this, processes
      ensures Valid() && end == old(end)
      ensures View() == SettleBy(old(View()), surplus)
    {
      ghost var before := View();
      SettleByActive(before, surplus);
      assert tasks[curTask] == before.Current();
      var late := tasks[curTask].actual - tasks[curTask].planned;
      processes[curProcess] := processes[curProcess].(lateness := processes[curProcess].lateness + late);
      lateness := lateness + late;
      instructionsRetired := instructionsRetired - surplus;
      processes[curProcess] := processes[curProcess].(retired := processes[curProcess].retired - surplus);
      if stress != 0 {
        stress := stress - 1;
      }
      assert View().processes == SettleBy(before, surplus).processes;
    }

    /** schedule_task_finished up to its call of switch_task (pb-scheduler.c:56-84) */
    method SettleTask()
      requires Valid() && Active(View())
      modifies this, tasks, processes, signals, signals.ring
      ensures Valid() && end == old(end)
      ensures View() == Settle(old(View()))
    {
      ghost var before := View();
      ActiveIsBeforeTheEnd(before);
      RaiseSignalShaped(before, TM2);
      assert tasks[curTask] == before.Current();
      var surplus := tasks[curTask].retiredSlot - tasks[curTask].actual;
      if CheckTM2Task(tasks[curTask]) || CheckTM2Node(instructionsPlanned, lateness) {
        Signal(TM2);
      }
      SettleCounters(surplus);
    }

    /** schedule_task_finished (pb-scheduler.c:56-86) */
    method ScheduleTaskFinished()
      requires Valid() && Active(View())
      modifies this, tasks, processes, signals, signals.ring
      ensures Valid() && end == old(end)
      ensures View() == FinishTask(old(View()))
    {
      ghost var before := View();
      SettleActive(before);
      ActiveIsBeforeTheEnd(Settle(before));
      SettleTask();
      SwitchTask();
    }

    /** The decision of pbs_run_timer_tick (pb-scheduler.c:42-46) */
    method Dispatch()
      requires Valid() && Active(View())
      modifies this, tasks, processes, signals, signals.ring
      ensures Valid() && end == old(end)
      ensures View() == Decide(old(View()))
    {
      assert tasks[curTask] == View().Current();
      if tasks[curTask].state == TaskFinished {
        ScheduleTaskFinished();
      } else {
        ScheduleTimerTick();
      }
    }

    /** The instructions of one tick are retired (pb-scheduler.c:39-40). */
    method BookTick()
      requires Valid() && Active(View())
      modifies this, tasks, processes
      ensures Valid() && end == old(end)
      ensures View() == Ticked(old(View())) && Active(View())
    {
      UpdateRetiredInstructions(INS_PER_TICK);
    }

    method CountTick()
      requires Valid()
      modifies `tickCounter
      ensures Valid() && View() == old(View()).(ticks := old(View()).ticks + 1)
    {
      tickCounter := tickCounter + 1;
    }

    /** A tick with the cursor on a task (pb-scheduler.c:39-47). */
    method TickTask()
      requires Valid() && Active(View())
      modifies this, tasks, processes, signals, signals.ring
      ensures Valid() && end == old(end)
      ensures View() == Tick(old(View()))
    {
      ghost var before := View();
      BookTick();
      Dispatch();
      ghost var decided := View();
      CountTick();
      TickInParts(before, decided, View());
    }

    /** pbs_run_timer_tick (pb-scheduler.c:26-48) */
    method RunTimerTick()
      requires Valid() && (View().Current().End() || Active(View()))
      modifies this, tasks, processes, signals, signals.ring
      ensures Valid() && end == old(end)
      ensures View() == Tick(old(View()))
    {
      assert tasks[curTask] == View().Current();
      if tasks[curTask].id == -2 {
        return;
      }
      TickTask();
    }
  }
}
