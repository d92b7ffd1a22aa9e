/** Plans that start with a task that takes longer than planned, and their first four ticks. */
module LateTask {
  import opened Config
  import opened Entities
  import opened Thresholds
  import opened Model
  import opened Invariant

  /** A task in its own slot, not yet done after this tick, below t2, in a plan in which nothing is late. */
  predicate Calm(s: State) {
    && Active(s) && s.stress == 0 && s.lateness <= 0 && s.planned >= 0
    && s.processes[s.curProcess].lateness <= 0
    && s.Current().slotOwner == s.Current().id && s.Current().state != TaskFinished
    && s.Current().planned >= 0
    && s.Current().retiredTask + INS_PER_TICK < s.Current().actual
    && s.Current().retiredSlot + INS_PER_TICK <= T2TaskLimit(s.Current().planned)
  }

  /** The tick of such a task raises no signal, and preempts it if and only if it reaches its t1. */
  lemma CalmTick(s: State)
    requires Calm(s)
    ensures Ticked(s).Current().state != TaskFinished && AfterT2(Ticked(s)) == Ticked(s)
    ensures CheckT1(Ticked(s)) <==> s.Current().retiredSlot + INS_PER_TICK >= T1Limit(s.Current().planned)
  {
    var s1 := Ticked(s);
    ActiveIsBeforeTheEnd(s);
    ActiveIsBeforeTheEnd(s1);
    NodeLimits(s1.numProcesses, s1.planned, s1.stress);
    assert !CheckT2Process(s1.processes[s1.curProcess], s1.numProcesses, s1.stress);
  }

  /** A tick without a signal, a completion or a preemption only books its instructions. */
  lemma QuietTick(s: State)
    requires Active(s) && s.stress == 0
    requires Ticked(s).Current().state != TaskFinished && AfterT2(Ticked(s)) == Ticked(s) && !CheckT1(Ticked(s))
    ensures Tick(s) == Ticked(s).(ticks := s.ticks + 1)
  {
  }

  /** Task 0 after `k` ticks: planned with one instruction, it takes five ticks. */
  function LongTaskAfter(k: int): Task {
    var ran := k * INS_PER_TICK;
    Task(0, 0, 1, 5 * INS_PER_TICK, ran, ran, 0, TaskWaiting, if k == 0 then 0 else ran - 1, 0)
  }

  /** What else is in the plan. */
  datatype Rest = Rest(
    tasks: seq<Task>, process: Process, others: seq<Process>, numProcesses: int, planned: int)

  /** The plan with task 0 in front, after `k` ticks. */
  function LongPlan(k: int, r: Rest): State {
    var ran := k * INS_PER_TICK;
    State(r.numProcesses, [r.process.(retired := ran)] + r.others, [LongTaskAfter(k)] + r.tasks,
          0, 0, 0, ran, r.planned, OnPlan, k, 0, 0, [])
  }

  lemma LongPlanIsActive(k: int, r: Rest)
    requires Active(LongPlan(0, r))
    ensures Active(LongPlan(k, r))
  {
    SameEntriesShaped(LongPlan(0, r), LongPlan(k, r));
  }

  lemma LongTaskRetires(k: int, r: Rest)
    requires 0 <= k < 4
    ensures RetireInTasks(LongPlan(k, r).tasks, 0, INS_PER_TICK) == LongPlan(k + 1, r).tasks
    ensures ChargeProcess(LongPlan(k, r).processes, 0, INS_PER_TICK) == LongPlan(k + 1, r).processes
  {
    var t := RetireOnTask(LongTaskAfter(k), INS_PER_TICK);
    assert t.(retiredSlot := (k + 1) * INS_PER_TICK) == LongTaskAfter(k + 1);
  }

  lemma LongPlanIsTicked(k: int, r: Rest)
    requires 0 <= k < 4 && Active(LongPlan(0, r))
    ensures Active(LongPlan(k, r)) && Ticked(LongPlan(k, r)) == LongPlan(k + 1, r).(ticks := k)
  {
    LongPlanIsActive(k, r);
    LongTaskRetires(k, r);
  }

  /** Nothing is late at the start. */
  predicate OnTime(r: Rest) {
    Active(LongPlan(0, r)) && r.process.lateness <= 0 && r.planned >= 0
  }

  lemma LongPlanTicks(k: int, r: Rest)
    requires 0 <= k < 3 && OnTime(r)
    ensures Active(LongPlan(k, r)) && Tick(LongPlan(k, r)) == LongPlan(k + 1, r)
  {
    LongPlanIsTicked(k, r);
    CalmTick(LongPlan(k, r));
    QuietTick(LongPlan(k, r));
  }

  lemma NextIsTick(s: State)
    requires Inv(s) && Active(s)
    ensures Next(s) == Tick(s)
  {
  }

  /** Three ticks of the run. */
  lemma {:induction false} LongPlanRuns(s: State, k: nat, r: Rest)
    requires k <= 3 && OnTime(r) && s == LongPlan(0, r) && Inv(s)
    ensures Run(s, k) == LongPlan(k, r)
    decreases k
  {
    if k == 0 {
    } else {
      LongPlanRuns(s, k - 1, r);
      LongPlanTicks(k - 1, r);
      NextIsTick(LongPlan(k - 1, r));
      NextRun(s, k - 1);
    }
  }

  /** The fourth tick reaches t1 and raises no signal before. */
  lemma FourthTickIsLate(r: Rest)
    requires OnTime(r)
    ensures Active(LongPlan(3, r)) && Ticked(LongPlan(3, r)) == LongPlan(4, r).(ticks := 3)
    ensures Ticked(LongPlan(3, r)).Current().state != TaskFinished
    ensures AfterT2(Ticked(LongPlan(3, r))) == Ticked(LongPlan(3, r)) && CheckT1(Ticked(LongPlan(3, r)))
  {
    LongPlanIsTicked(3, r);
    CalmTick(LongPlan(3, r));
  }

  /** The process table as it is behind the processes of a parsed text: the end mark, then zeros. */
  function UnusedProcesses(n: nat): (ps: seq<Process>)
    ensures |ps| == n
  {
    seq(n, i => if i == 0 then Process(-2, 0, -2, 0, 0, 0) else Process(0, 0, 0, 0, 0, 0))
  }

  /** The sentinel as it is written into a zeroed array. */
  const SENTINEL := CreateTask(0, 0, 0, 0).(id := -2, pid := -2)
}
