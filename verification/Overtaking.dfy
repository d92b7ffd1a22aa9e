/** Plans of any kind: which ticks keep every process's task order, and a run that breaks it. */
module Overtaking {
  import opened Entities
  import opened Model
  import opened Layout
  import opened Invariant
  import opened Steps
  import opened ProcessOrder
  import opened LateTask

  /** No process has its tasks in another order. */
  ghost predicate SameOrder(a: seq<Task>, b: seq<Task>) {
    forall pid :: TasksOf(a, pid) == TasksOf(b, pid)
  }

  /** The stack at the cursor is the whole leading run of its process. */
  predicate WholeRunLeads(ts: seq<Task>, cur: int)
    requires 0 <= cur < |ts|
  {
    cur + StackSize(ts, cur) == RunEnd(ts, cur, ts[cur].pid)
  }

  /**
   * One preemption keeps the order of every process if and only if the stack it moves is the whole
   * leading run; a shorter stack jumps over its own siblings (prediction_failure_handling.c:78-82, 116-120).
   */
  lemma PreemptionKeepsOrderIff(s: State)
    requires LaidOut(s) && Active(s)
    requires InsertionSlot(s.tasks, s.cur, s.Current().pid) != -2
    ensures SameOrder(StackMoved(s.tasks, s.cur), s.tasks) <==> WholeRunLeads(s.tasks, s.cur)
  {
    var ts, cur, p := s.tasks, s.cur, s.Current().pid;
    StackFitsSlot(ts, cur);
    var k, slot, e := StackSize(ts, cur), InsertionSlot(ts, cur, p), RunEnd(ts, cur, p);
    assert slot + 1 < |ts| - 1 && ts[slot + 1].Real() by {
      ActiveIsBeforeTheEnd(s);
      assert ts[slot + 1].pid == p;
      if slot + 1 < |ts| - 1 { assert GoodEntry(ts[slot + 1], s.processes, s.numProcesses); }
    }
    if cur + k == e {
      forall pid ensures TasksOf(StackMoved(ts, cur), pid) == TasksOf(ts, pid) {
        RotateKeepsOrder(ts, cur, k, slot, pid);
      }
    } else {
      assert cur + k < e;
      SiblingOvertakes(s, k, slot);
    }
  }

  lemma SiblingOvertakes(s: State, k: int, slot: int)
    requires LaidOut(s) && Active(s) && 1 <= k && s.cur + k <= slot < slot + 1 < |s.tasks| - 1
    requires s.tasks[s.cur + k].pid == s.Current().pid
    ensures TasksOf(Rotate(s.tasks, s.cur, k, slot), s.Current().pid) != TasksOf(s.tasks, s.Current().pid)
  {
    var ts, cur, p := s.tasks, s.cur, s.Current().pid;
    assert GoodEntry(ts[cur], s.processes, s.numProcesses) && GoodEntry(ts[cur + k], s.processes, s.numProcesses);
    RotateTasksOf(ts, cur, k, slot, p);
    var front := TasksOf(ts[..cur], p);
    assert TasksOf(ts[cur..cur + k], p)[0] == ts[cur].id;
    assert TasksOf(ts[cur + k..slot + 1], p)[0] == ts[cur + k].id;
    assert TasksOf(ts, p)[|front|] == ts[cur].id;
    assert TasksOf(Rotate(ts, cur, k, slot), p)[|front|] == ts[cur + k].id;
    assert ts[cur].id != ts[cur + k].id;
  }

  lemma SameOrderAcross(a: seq<Task>, b: seq<Task>, c: seq<Task>)
    requires SameLayout(a, b)
    ensures SameOrder(a, c) <==> SameOrder(b, c)
  {
    forall pid ensures TasksOf(a, pid) == TasksOf(b, pid) {
      TasksOfSame(a, b, pid);
    }
    assert SameOrder(a, c) ==> forall pid :: TasksOf(b, pid) == TasksOf(a, pid) == TasksOf(c, pid);
    assert SameOrder(b, c) ==> forall pid :: TasksOf(a, pid) == TasksOf(b, pid) == TasksOf(c, pid);
  }

  /**
   * A tick keeps the order of every process if and only if it moves no task or moves the whole leading
   * run of the process it preempts.
   */
  lemma TickKeepsOrderIff(s: State)
    requires Inv(s)
    ensures s.Current().End() || Active(s)
    ensures SameOrder(Tick(s).tasks, s.tasks) <==> EventOf(s).Preempted? ==> WholeRunLeads(s.tasks, s.cur)
  {
    SettledCases(s);
    if !s.Current().End() {
      if EventOf(s).Preempted? {
        PreemptedStep(s);
        PreemptionKeepsOrderIff(s);
        SameOrderAcross(StackMoved(s.tasks, s.cur), Tick(s).tasks, s.tasks);
      } else {
        if EventOf(s) == Completed { CompletedStep(s); } else { StayingStep(s); }
        SameOrderAcross(s.tasks, Tick(s).tasks, s.tasks);
      }
    }
  }

  // ----- a run that breaks the order -----

  /** Behind the late task 0 its neighbour, task 1, and behind a task of another process one more sibling. */
  predicate SiblingsAround(r: Rest) {
    && |r.tasks| == 4
    && (forall i :: 0 <= i < 3 ==> r.tasks[i].id == r.tasks[i].slotOwner == i + 1)
    && r.tasks[0].pid == 0 && r.tasks[1].pid == 1 && r.tasks[2].pid == 0 && r.tasks[3].pid == r.tasks[3].id == -2
  }

  /** The plan of the text "2;0,0;1,0;;;0,0,1,50000000;0,1,1,1;1,2,1,1;0,3,1,1;". */
  const SIBLINGS := Rest(
    [CreateTask(1, 0, 1, 1), CreateTask(2, 1, 1, 1), CreateTask(3, 0, 1, 1), SENTINEL],
    Process(0, 3, 0, 0, 3, 0), [Process(1, 1, 0, 0, 1, 0)] + UnusedProcesses(8), 2, 4)

  lemma SiblingPlanIsActive()
    ensures OnTime(SIBLINGS) && SiblingsAround(SIBLINGS)
  {
  }

  lemma SiblingPlanIsFresh()
    ensures OnTime(SIBLINGS) && SiblingsAround(SIBLINGS) && Fresh(LongPlan(0, SIBLINGS))
  {
    SiblingPlanIsActive();
    var ts := LongPlan(0, SIBLINGS).tasks;
    assert forall i :: 0 <= i < |ts| - 1 ==> ts[i].Real() && ts[i].id == i;
  }

  lemma SiblingsAreNeighbours(ts: seq<Task>)
    requires |ts| == 5 && ts[0].Real() && ts[0].pid == 0 == ts[1].pid && ts[2].pid == 1
    ensures !Separated(ts)
  {
    assert Neighbours(ts, 0) && ts[2].pid == 1;
  }

  predicate SiblingLayout(ts: seq<Task>) {
    && |ts| == 5
    && (forall i :: 0 <= i < 4 ==> ts[i].id == ts[i].slotOwner == i)
    && ts[0].pid == ts[1].pid == ts[3].pid == 0 && ts[2].pid == 1 && ts[4].pid == ts[4].id == -2
  }

  /** The slot that is found is behind task 2, and task 0 is alone on its stack. */
  lemma SiblingIsLeftBehind(ts: seq<Task>)
    requires SiblingLayout(ts)
    ensures InsertionSlot(ts, 0, 0) == 2 && StackSize(ts, 0) == 1
    ensures var r := Rotate(ts, 0, 1, 2); r[0].id == 1 && r[2].id == 0 && r[0].pid == 0 == r[2].pid
  {
    assert RunEnd(ts, 0, 0) == 2 by {
      assert RunEnd(ts, 2, 0) == 2;
      assert RunEnd(ts, 1, 0) == 2;
    }
    assert NextOf(ts, 2, 0) == 3 by {
      assert NextOf(ts, 3, 0) == 3;
    }
    assert StackEnd(ts, 1, ts[0]) == 1;
    RotateAt(ts, 0, 1, 2, 0);
    RotateAt(ts, 0, 1, 2, 2);
  }

  lemma FourthTickPreempts(s: State, r: Rest)
    requires OnTime(r) && SiblingsAround(r) && s == LongPlan(3, r)
    ensures Active(s) && EventOf(s) == Preempted(0) && SiblingLayout(s.tasks)
  {
    FourthTickIsLate(r);
    SiblingIsLeftBehind(Ticked(s).tasks);
  }

  lemma SiblingsSwap(s: State)
    requires Inv(s) && Active(s) && s.cur == 0 && SiblingLayout(s.tasks)
    requires EventOf(s) == Preempted(0)
    ensures Ascends(s.tasks) && !Ascends(Tick(s).tasks)
  {
    PreemptedStep(s);
    SiblingIsLeftBehind(s.tasks);
    var t := Tick(s).tasks;
    assert t[0].Real() && t[2].Real() && t[0].id > t[2].id && t[0].pid == t[2].pid;
  }

  lemma SiblingRun(s: State, n: nat, r: Rest)
    requires OnTime(r) && SiblingsAround(r) && s == LongPlan(0, r) && n == 3 && Inv(s)
    ensures Active(Run(s, n)) && EventOf(Run(s, n)) == Preempted(0)
    ensures Ascends(Run(s, n).tasks) && !Ascends(Run(s, n + 1).tasks)
  {
    LongPlanRuns(s, n, r);
    var x := Run(s, n);
    FourthTickPreempts(x, r);
    SiblingsSwap(x);
    NextRun(s, n);
    NextIsTick(x);
  }

  /**
   * Without the hypothesis of ProcessOrder the order can break: in this run the tick after the third
   * preempts task 0 and puts it behind its neighbour, task 1.
   */
  lemma OrderCanBreak(s: State, n: nat)
    requires s == LongPlan(0, SIBLINGS) && n == 3
    ensures Fresh(s) && !Separated(s.tasks) && Inv(s)
    ensures Active(Run(s, n)) && EventOf(Run(s, n)) == Preempted(0)
    ensures Ascends(Run(s, n).tasks) && !Ascends(Run(s, n + 1).tasks)
  {
    SiblingPlanIsFresh();
    SiblingsAreNeighbours(s.tasks);
    FreshInv(s);
    SiblingRun(s, n, SIBLINGS);
  }
}
