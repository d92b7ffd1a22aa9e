/** The records of pbs_entities.h. A record that the program copies by value is a datatype. */
module Entities {
  import opened Config

  datatype TaskState = TaskWaiting | TaskRunning | TaskPreempted | TaskSignaled | TaskFinished | TaskAborted

  /** One entry of the task array: a task, a free slot (both ids -1) or the sentinel (both ids -2). */
  datatype Task = Task(
    id: int,
    pid: int,
    planned: int,
    actual: int,        // instructions_real: what the task really takes
    retiredTask: int,   // instructions run by this task, in whatever slot
    retiredSlot: int,   // instructions booked on this task's own slot, by whatever task
    wasPreempted: int,
    state: TaskState,
    lateness: int,
    slotOwner: int      // id of the task in whose slot this one runs
  ) {
    predicate Free() { id == -1 }
    predicate End() { id == -2 }
    predicate Real() { id != -1 && id != -2 }
  }

  datatype Process = Process(
    pid: int,
    tasksRemaining: int,
    buffer: int,
    lateness: int,
    planLength: int,
    retired: int
  )

  datatype SignalKind = NoSignal | T2 | TM2

  datatype Signal = Signal(taskId: int, processId: int, tick: int, kind: SignalKind)

  datatype PlanStatus = OnPlan | PlanSignaled | PlanFinished

  /**
   * A snapshot of the plan. `tasks` is the task array up to and including the sentinel; `cur` is
   * the cursor (index_cur_task, and where cur_task points); `curProcess` is the index that
   * cur_process points at, -2 once the cursor is on the sentinel; `signals` is every signal ever
   * raised, oldest first.
   */
  datatype State = State(
    numProcesses: int,
    processes: seq<Process>,
    tasks: seq<Task>,
    cur: int,
    curProcess: int,
    lateness: int,
    retired: int,
    planned: int,
    status: PlanStatus,
    ticks: int,
    tasksFinished: int,
    stress: int,
    signals: seq<Signal>
  ) {
    function Current(): Task
      requires 0 <= cur < |tasks|
    {
      tasks[cur]
    }
  }

  /** create_task (task.c:72-81) */
  function CreateTask(id: int, pid: int, planned: int, actual: int): Task {
    Task(id, pid, planned, actual, 0, 0, 0, TaskWaiting, 0, id)
  }

  /** An entry of which nothing was run yet and which was never moved: all that is not in the plan's text. */
  predicate Untouched(t: Task) {
    && t.retiredTask == 0 && t.retiredSlot == 0 && t.lateness == 0 && t.wasPreempted == 0
    && t.state == TaskWaiting && t.slotOwner == t.id
  }

  /** An entry before the sentinel: a free slot, or a task of a process that has a plan. */
  predicate GoodEntry(t: Task, processes: seq<Process>, numProcesses: int)
    requires numProcesses <= |processes|
  {
    && t.id != -2
    && (t.Free() ==> t.pid == -1)
    && (t.Real() ==> 0 <= t.pid < numProcesses && processes[t.pid].planLength > 0)
  }

  /**
   * What every function of the scheduler takes for granted about the arrays: a sentinel closes the
   * task list, pids index the process table, every process in use has a plan
   * (threshold_checking.c:119), and the cursor is on an entry.
   */
  predicate Shaped(s: State) {
    && |s.processes| == MAX_NUMBER_PROCESSES
    && 0 <= s.numProcesses <= MAX_NUMBER_PROCESSES
    && (forall p :: 0 <= p < s.numProcesses ==> s.processes[p].pid == p)
    && 0 <= s.cur < |s.tasks|
    && s.tasks[|s.tasks| - 1].End()
    && s.tasks[|s.tasks| - 1].pid == -2
    && (forall i :: 0 <= i < |s.tasks| - 1 ==> GoodEntry(s.tasks[i], s.processes, s.numProcesses))
  }

  /** The cursor is on a task, and cur_process is that task's process. */
  predicate Active(s: State) {
    && Shaped(s)
    && s.Current().Real()
    && s.curProcess == s.Current().pid
  }

  lemma ActiveIsBeforeTheEnd(s: State)
    requires Active(s)
    ensures s.cur < |s.tasks| - 1
    ensures 0 <= s.curProcess < s.numProcesses
    ensures s.processes[s.curProcess].planLength > 0
  {
    assert GoodEntry(s.tasks[s.cur], s.processes, s.numProcesses);
  }

  lemma ActiveEntry(s: State)
    requires Shaped(s) && s.Current().Real()
    ensures s.cur < |s.tasks| - 1
    ensures GoodEntry(s.Current(), s.processes, s.numProcesses)
  {
  }
}
