/** One timer tick as a function on plan snapshots. The class in Scheduler.dfy is proved to compute it. */
module Model {
  import opened Config
  import opened Entities
  import opened Thresholds

  // ----- retiring instructions (task.c, process.c, plan.c) -----

  /** pbs_update_retired_instructions_task (task.c:16-29) */
  function RetireOnTask(t: Task, n: int): Task {
    var t1 := t.(retiredTask := t.retiredTask + n);
    var t2 := if t1.retiredTask > t1.planned then t1.(lateness := t1.retiredTask - t1.planned) else t1;
    if t2.retiredTask >= t2.actual
    then t2.(lateness := t2.actual - t2.planned, state := TaskFinished)
    else t2
  }

  /** The first entry before the sentinel, from `from` on, that has this id; -1 if there is none. */
  function IndexFrom(ts: seq<Task>, id: int, from: int): (r: int)
    requires 0 <= from < |ts|
    ensures r == -1 ==> forall j :: from <= j < |ts| - 1 ==> ts[j].id != id
    ensures r != -1 ==> from <= r < |ts| - 1 && ts[r].id == id && forall j :: from <= j < r ==> ts[j].id != id
    decreases |ts| - from
  {
    if from == |ts| - 1 then -1
    else if ts[from].id == id then from
    else IndexFrom(ts, id, from + 1)
  }

  /** find_task_with_task_id (plan.c:68-78), -1 standing for the null pointer */
  function IndexOf(ts: seq<Task>, id: int): int
    requires |ts| > 0
  {
    IndexFrom(ts, id, 0)
  }

  /** The entry on whose slot the current task's instructions are booked (plan.c:34-39). */
  function SlotIndex(ts: seq<Task>, cur: int): (r: int)
    requires 0 <= cur < |ts|
    ensures -1 <= r < |ts|
  {
    if ts[cur].slotOwner == ts[cur].id then cur else IndexOf(ts, ts[cur].slotOwner)
  }

  /** The task list after the current task retired `n` instructions (plan.c:31-39). */
  function RetireInTasks(ts: seq<Task>, cur: int, n: int): (r: seq<Task>)
    requires 0 <= cur < |ts|
    ensures |r| == |ts|
  {
    var ts1 := ts[cur := RetireOnTask(ts[cur], n)];
    var o := SlotIndex(ts1, cur);
    if o == -1 then ts1 else ts1[o := ts1[o].(retiredSlot := ts1[o].retiredSlot + n)]
  }

  /** update_retired_instructions_process (process.c:14-16); a process pointer outside the table is not followed */
  function ChargeProcess(ps: seq<Process>, k: int, n: int): (r: seq<Process>)
    ensures |r| == |ps|
  {
    if 0 <= k < |ps| then ps[k := ps[k].(retired := ps[k].retired + n)] else ps
  }

  function Retire(s: State, n: int): State
    requires Shaped(s)
  {
    s.(tasks := RetireInTasks(s.tasks, s.cur, n),
       processes := ChargeProcess(s.processes, s.curProcess, n),
       retired := s.retired + n)
  }

  /** update_retired_instructions (plan.c:19-44): a negative amount is free space */
  function UpdateRetired(s: State, n: int): State
    requires Shaped(s)
  {
    if n < 0 then s.(lateness := s.lateness + n) else Retire(s, n)
  }

  // ----- moving the cursor (plan.c, pb-scheduler.c) -----

  /** update_cur_process (plan.c:51-60) */
  function Enter(s: State): State
    requires 0 <= s.cur < |s.tasks|
  {
    s.(tasks := s.tasks[s.cur := s.Current().(state := TaskRunning)],
       curProcess := if s.Current().Free() then MAX_NUMBER_PROCESSES - 1 else s.Current().pid)
  }

  /** The cursor moved on by one entry (pb-scheduler.c:129-131, 168-170). */
  function Advance(s: State): (r: State)
    requires Shaped(s) && s.cur + 1 < |s.tasks|
    ensures Shaped(r) && r.cur == s.cur + 1
  {
    EnterShaped(s.(cur := s.cur + 1));
    Enter(s.(cur := s.cur + 1))
  }

  /** handle_free_slot (pb-scheduler.c:158-175): the slot charged is the first of the whole list */
  function SkipFreeSlot(s: State): State
    requires Shaped(s) && s.Current().Free()
  {
    UpdateRetired(Advance(s), -Advance(s).tasks[0].planned)
  }

  function SkipIfFree(s: State): State
    requires Shaped(s)
  {
    if s.Current().Free() then SkipFreeSlot(s) else s
  }

  lemma EnterShaped(s: State)
    requires Shaped(s)
    ensures Shaped(Enter(s))
  {
    assert forall i :: 0 <= i < |s.tasks| - 1 ==> GoodEntry(s.tasks[i], s.processes, s.numProcesses);
  }

  /** switch_task (pb-scheduler.c:124-137) */
  function SwitchTask(s: State): State
    requires Shaped(s) && s.cur + 1 < |s.tasks|
  {
    SkipIfFree(Advance(s.(tasksFinished := s.tasksFinished + 1)))
  }

  // ----- signaling (prediction_failure_signaling.c) -----

  /** reschedule (prediction_failure_signaling.c:59-81): rescales the plans of one process from the cursor on */
  function Rescale(ts: seq<Task>, from: int, pid: int, kind: SignalKind): (r: seq<Task>)
    ensures |r| == |ts|
  {
    seq(|ts|, i requires 0 <= i < |ts| =>
      if from <= i < |ts| - 1 && ts[i].pid == pid
      then ts[i].(planned := Rescaled(ts[i].planned, kind))
      else ts[i])
  }

  /** signal_t2 and signal_tm2 (prediction_failure_signaling.c:20-52); tm2 always reschedules process 0 */
  function RaiseSignal(s: State, kind: SignalKind): State
    requires Shaped(s) && 0 <= s.curProcess < |s.processes|
  {
    var process := s.processes[s.curProcess];
    s.(stress := STRESS_RESET,
       signals := s.signals + [Signal(s.Current().id, process.pid, s.ticks, kind)],
       tasks := Rescale(s.tasks, s.cur, if kind == T2 then process.pid else 0, kind),
       lateness := 0,
       processes := s.processes[s.curProcess := process.(lateness := 0)])
  }

  // ----- preemption (prediction_failure_handling.c) -----

  /** The first entry from `i` on that is not of this process. */
  function RunEnd(ts: seq<Task>, i: int, pid: int): (e: int)
    requires 0 <= i <= |ts|
    ensures i <= e <= |ts|
    ensures forall m :: i <= m < e ==> ts[m].pid == pid
    ensures e < |ts| ==> ts[e].pid != pid
    decreases |ts| - i
  {
    if i < |ts| && ts[i].pid == pid then RunEnd(ts, i + 1, pid) else i
  }

  /** The first entry from `i` on that is of this process, or the length of the list. */
  function NextOf(ts: seq<Task>, i: int, pid: int): (j: int)
    requires 0 <= i <= |ts|
    ensures i <= j <= |ts|
    ensures forall m :: i <= m < j ==> ts[m].pid != pid
    ensures j < |ts| ==> ts[j].pid == pid
    decreases |ts| - i
  {
    if i < |ts| && ts[i].pid != pid then NextOf(ts, i + 1, pid) else i
  }

  /** find_slot_to_move_to (prediction_failure_handling.c:72-99) */
  function InsertionSlot(ts: seq<Task>, cur: int, pid: int): int
    requires 0 <= cur <= |ts|
  {
    var j := NextOf(ts, RunEnd(ts, cur, pid), pid);
    if j == |ts| then -2 else j - 1
  }

  /** From `i` on, the end of the tasks that share the process and the slot owner of `t`. */
  function StackEnd(ts: seq<Task>, i: int, t: Task): (e: int)
    requires 0 <= i <= |ts|
    ensures i <= e <= |ts|
    ensures forall m :: i <= m < e ==> ts[m].pid == t.pid && ts[m].slotOwner == t.slotOwner
    ensures e < |ts| ==> ts[e].pid != t.pid || ts[e].slotOwner != t.slotOwner
    decreases |ts| - i
  {
    if i < |ts| && ts[i].pid == t.pid && ts[i].slotOwner == t.slotOwner then StackEnd(ts, i + 1, t) else i
  }

  /** get_stack_size_preempted_tasks (prediction_failure_handling.c:108-122) */
  function StackSize(ts: seq<Task>, cur: int): (k: int)
    requires 0 <= cur < |ts|
    ensures 1 <= k <= |ts| - cur
  {
    StackEnd(ts, cur, ts[cur]) - cur
  }

  function GiveTo(owner: int, stack: seq<Task>): (r: seq<Task>)
    ensures |r| == |stack|
  {
    seq(|stack|, i requires 0 <= i < |stack| => stack[i].(slotOwner := owner))
  }

  /**
   * The list after move_tasks: the `k` entries at `cur` are rotated to just before entry `slot + 1`
   * and handed to its owner (prediction_failure_handling.c:132-159).
   */
  function Rotate(ts: seq<Task>, cur: int, k: int, slot: int): (r: seq<Task>)
    requires 0 <= cur && 0 <= k && cur + k <= slot + 1 < |ts|
    ensures |r| == |ts|
  {
    ts[..cur] + ts[cur + k..slot + 1] + GiveTo(ts[slot + 1].id, ts[cur..cur + k]) + ts[slot + 1..]
  }

  /**
   * The two searches fit together: the stack ends before the insertion slot, so there is something
   * to rotate it over and the entry that becomes current is not the sentinel
   * (prediction_failure_handling.c:44).
   */
  lemma StackFitsSlot(ts: seq<Task>, cur: int)
    requires 0 <= cur < |ts|
    requires InsertionSlot(ts, cur, ts[cur].pid) != -2
    ensures var slot := InsertionSlot(ts, cur, ts[cur].pid);
            var k := StackSize(ts, cur);
            && cur + k <= RunEnd(ts, cur, ts[cur].pid) <= slot < slot + 1 < |ts|
            && k <= slot - cur
            && ts[slot + 1].pid == ts[cur].pid
            && forall m :: RunEnd(ts, cur, ts[cur].pid) <= m <= slot ==> ts[m].pid != ts[cur].pid
  {
    var pid := ts[cur].pid;
    var e := RunEnd(ts, cur, pid);
    var stack := StackEnd(ts, cur, ts[cur]);
    assert stack <= e;
  }

  /** The rotated list with the entry that became current set to running. */
  function MoveStack(s: State): State
    requires Shaped(s) && InsertionSlot(s.tasks, s.cur, s.Current().pid) != -2
  {
    StackFitsSlot(s.tasks, s.cur);
    var slot := InsertionSlot(s.tasks, s.cur, s.Current().pid);
    Enter(s.(tasks := Rotate(s.tasks, s.cur, StackSize(s.tasks, s.cur), slot)))
  }

  /** handle_no_preemption_slot_found (prediction_failure_handling.c:56-62): the task is run to its end at once */
  function ForceFinish(s: State): State
    requires Shaped(s)
  {
    UpdateRetired(s, s.Current().actual - s.Current().retiredTask).(status := PlanFinished)
  }

  function CountPreemption(s: State): State
    requires Shaped(s)
  {
    s.(tasks := s.tasks[s.cur := s.Current().(wasPreempted := s.Current().wasPreempted + 1)])
  }

  lemma CountPreemptionShaped(s: State)
    requires Shaped(s)
    ensures Shaped(CountPreemption(s))
  {
    assert forall i :: 0 <= i < |s.tasks| - 1 ==> GoodEntry(s.tasks[i], s.processes, s.numProcesses);
  }

  /** What happens to a task that is to be preempted (prediction_failure_handling.c:37-46). */
  function Relocate(s: State): State
    requires Shaped(s)
  {
    if InsertionSlot(s.tasks, s.cur, s.Current().pid) == -2 then ForceFinish(s) else MoveStack(s)
  }

  /** preempt_cur_task (prediction_failure_handling.c:30-52) */
  function Preempt(s: State): State
    requires Shaped(s)
  {
    CountPreemptionShaped(s);
    Relocate(CountPreemption(s))
  }

  // ----- the tick (pb-scheduler.c) -----

  /** The guards of schedule_timer_tick for a T2 signal (pb-scheduler.c:96-99). */
  predicate T2Due(s: State)
    requires Active(s)
  {
    ActiveIsBeforeTheEnd(s);
    && (s.stress <= 0 || CheckT2Preemptions(s.Current()))
    && (|| CheckT2Task(s.Current())
        || CheckT2Process(s.processes[s.curProcess], s.numProcesses, s.stress)
        || CheckT2Node(s.numProcesses, s.planned, s.stress, s.lateness))
  }

  /** check_t1 (threshold_checking.c:36-56); a null owner never fires */
  predicate CheckT1(s: State)
    requires Shaped(s)
  {
    var o := SlotIndex(s.tasks, s.cur);
    o != -1 && s.tasks[o].retiredSlot >= T1Limit(s.tasks[o].planned)
  }

  /** schedule_timer_tick up to its T1 check (pb-scheduler.c:94-102) */
  function AfterT2(s: State): State
    requires Active(s)
  {
    ActiveIsBeforeTheEnd(s);
    if T2Due(s) then RaiseSignal(s, T2) else s
  }

  function Relax(stress: int): int {
    if stress != 0 then stress - 1 else stress
  }

  /** The signal guard of schedule_task_finished (pb-scheduler.c:60-64). */
  predicate TM2Due(s: State)
    requires Shaped(s)
  {
    CheckTM2Task(s.Current()) || CheckTM2Node(s.planned, s.lateness)
  }

  /** The updates of schedule_task_finished (pb-scheduler.c:75-84) */
  function SettleBy(s: State, surplus: int): State
    requires Active(s)
  {
    ActiveIsBeforeTheEnd(s);
    var late := s.Current().actual - s.Current().planned;
    var process := s.processes[s.curProcess];
    s.(lateness := s.lateness + late,
       retired := s.retired - surplus,
       processes := s.processes[s.curProcess :=
         process.(lateness := process.lateness + late, retired := process.retired - surplus)],
       stress := Relax(s.stress))
  }

  lemma SettleByActive(s: State, surplus: int)
    requires Active(s)
    ensures Active(SettleBy(s, surplus))
  {
    ActiveIsBeforeTheEnd(s);
    assert forall i :: 0 <= i < |s.tasks| - 1 ==> GoodEntry(s.tasks[i], s.processes, s.numProcesses);
  }

  /** schedule_task_finished up to switch_task (pb-scheduler.c:56-84) */
  function Settle(s: State): State
    requires Active(s)
  {
    ActiveIsBeforeTheEnd(s);
    RaiseSignalShaped(s, TM2);
    SettleBy(if TM2Due(s) then RaiseSignal(s, TM2) else s, s.Current().retiredSlot - s.Current().actual)
  }

  lemma RaiseSignalShaped(s: State, kind: SignalKind)
    requires Shaped(s) && 0 <= s.curProcess < |s.processes|
    ensures Shaped(RaiseSignal(s, kind))
    ensures Active(s) ==> Active(RaiseSignal(s, kind))
  {
    assert forall i :: 0 <= i < |s.tasks| - 1 ==> GoodEntry(s.tasks[i], s.processes, s.numProcesses);
  }

  lemma SettleActive(s: State)
    requires Active(s)
    ensures Active(Settle(s))
  {
    ActiveIsBeforeTheEnd(s);
    RaiseSignalShaped(s, TM2);
    SettleByActive(if TM2Due(s) then RaiseSignal(s, TM2) else s, s.Current().retiredSlot - s.Current().actual);
  }

  lemma AfterT2Active(s: State)
    requires Active(s)
    ensures Active(AfterT2(s))
  {
    ActiveIsBeforeTheEnd(s);
    RaiseSignalShaped(s, T2);
  }

  /** Two lists with the same entries in the same places. */
  predicate SameEntries(a: seq<Task>, b: seq<Task>) {
    |a| == |b| && forall i :: 0 <= i < |a| ==> a[i].id == b[i].id && a[i].pid == b[i].pid
  }

  predicate SamePlans(a: seq<Process>, b: seq<Process>) {
    |a| == |b| && forall p :: 0 <= p < |a| ==> a[p].pid == b[p].pid && a[p].planLength == b[p].planLength
  }

  lemma SameEntriesShaped(s: State, t: State)
    requires Shaped(s) && SameEntries(s.tasks, t.tasks) && SamePlans(s.processes, t.processes)
    requires t.numProcesses == s.numProcesses && t.cur == s.cur
    ensures Shaped(t)
  {
    forall i | 0 <= i < |t.tasks| - 1 ensures GoodEntry(t.tasks[i], t.processes, t.numProcesses) {
      assert GoodEntry(s.tasks[i], s.processes, s.numProcesses);
    }
  }

  lemma RetireKeepsShape(s: State, n: int)
    requires Shaped(s)
    ensures Shaped(Retire(s, n))
  {
    SameEntriesShaped(s, Retire(s, n));
  }

  lemma RetireShaped(s: State, n: int)
    requires Shaped(s)
    ensures Shaped(UpdateRetired(s, n))
    ensures Active(s) ==> Active(UpdateRetired(s, n))
  {
    SameEntriesShaped(s, UpdateRetired(s, n));
  }

  lemma RetireActive(s: State, n: int)
    requires Active(s)
    ensures Active(Retire(s, n))
  {
    assert forall i :: 0 <= i < |s.tasks| - 1 ==> GoodEntry(s.tasks[i], s.processes, s.numProcesses);
  }

  lemma RetiredOnTaskShaped(s: State, n: int)
    requires Shaped(s)
    ensures Shaped(s.(tasks := s.tasks[s.cur := RetireOnTask(s.Current(), n)]))
  {
    assert forall i :: 0 <= i < |s.tasks| - 1 ==> GoodEntry(s.tasks[i], s.processes, s.numProcesses);
  }

  lemma PreemptShaped(s: State)
    requires Shaped(s)
    ensures Shaped(Preempt(s))
  {
    CountPreemptionShaped(s);
    var s1 := CountPreemption(s);
    var slot := InsertionSlot(s1.tasks, s1.cur, s1.Current().pid);
    if slot == -2 {
      RetireShaped(s1, s1.Current().actual - s1.Current().retiredTask);
    } else {
      StackFitsSlot(s1.tasks, s1.cur);
      var k := StackSize(s1.tasks, s1.cur);
      RotateShaped(s1, k, slot);
      EnterShaped(s1.(tasks := Rotate(s1.tasks, s1.cur, k, slot)));
    }
  }

  lemma RotateShaped(s: State, k: int, slot: int)
    requires Shaped(s)
    requires 0 <= k && s.cur + k <= slot + 1 < |s.tasks|
    ensures Shaped(s.(tasks := Rotate(s.tasks, s.cur, k, slot)))
  {
    var r := Rotate(s.tasks, s.cur, k, slot);
    forall i | 0 <= i < |r| - 1 ensures GoodEntry(r[i], s.processes, s.numProcesses) {
      RotateAt(s.tasks, s.cur, k, slot, i);
      var m := RotateSource(s.cur, k, slot, i);
      assert GoodEntry(s.tasks[m], s.processes, s.numProcesses);
    }
    RotateAt(s.tasks, s.cur, k, slot, |r| - 1);
  }

  /** Where entry `i` of the rotated list comes from. */
  function RotateSource(cur: int, k: int, slot: int, i: int): int {
    if i < cur || slot < i then i
    else if i <= slot - k then i + k
    else i - (slot + 1 - k) + cur
  }

  lemma RotateAt(ts: seq<Task>, cur: int, k: int, slot: int, i: int)
    requires 0 <= cur && 0 <= k && cur + k <= slot + 1 < |ts|
    requires 0 <= i < |ts|
    ensures var m := RotateSource(cur, k, slot, i);
            && 0 <= m < |ts|
            && (i == |ts| - 1 <==> m == |ts| - 1)
            && Rotate(ts, cur, k, slot)[i] == if cur <= m < cur + k then ts[m].(slotOwner := ts[slot + 1].id) else ts[m]
  {
  }

  /** What the forward loop of move_tasks makes of `was`; `now[slot - k + 1..slot + 1]` is left open. */
  predicate MovedForward(was: seq<Task>, now: seq<Task>, cur: int, k: int, slot: int)
    requires 0 <= cur && 0 <= k && cur + k <= slot + 1 < |was|
  {
    && |now| == |was|
    && now[..cur] == was[..cur] && now[slot + 1..] == was[slot + 1..]
    && now[cur..slot - k + 1] == was[cur + k..slot + 1]
  }

  /** The rotated list, put together from what move_tasks leaves in the array and what it saved. */
  lemma RotatedParts(ts: seq<Task>, cur: int, k: int, slot: int, now: seq<Task>, given: seq<Task>)
    requires 0 <= cur && 0 <= k && cur + k <= slot + 1 < |ts| && MovedForward(ts, now, cur, k, slot)
    requires given == GiveTo(ts[slot + 1].id, ts[cur..cur + k])
    ensures now[..slot - k + 1] + given + now[slot + 1..] == Rotate(ts, cur, k, slot)
  {
    assert now[..slot - k + 1] == now[..cur] + now[cur..slot - k + 1];
  }

  /** What lies behind the insertion slot does not matter to a rotation. */
  lemma RotatePrefix(ts: seq<Task>, n: int, cur: int, k: int, slot: int)
    requires 0 <= cur && 0 <= k && cur + k <= slot + 1 < n <= |ts|
    ensures Rotate(ts, cur, k, slot)[..n] == Rotate(ts[..n], cur, k, slot)
  {
    forall i | 0 <= i < n ensures Rotate(ts, cur, k, slot)[i] == Rotate(ts[..n], cur, k, slot)[i] {
      RotateAt(ts, cur, k, slot, i);
      RotateAt(ts[..n], cur, k, slot, i);
    }
  }

  /** schedule_task_finished (pb-scheduler.c:56-86) */
  function FinishTask(s: State): State
    requires Active(s)
  {
    SettleActive(s);
    ActiveIsBeforeTheEnd(Settle(s));
    SwitchTask(Settle(s))
  }

  /** The late task is preempted and a free slot that came up is passed (pb-scheduler.c:106-109). */
  function GiveWay(s: State): State
    requires Shaped(s)
  {
    PreemptShaped(s);
    SkipIfFree(Preempt(s))
  }

  /** schedule_timer_tick from its T1 check on (pb-scheduler.c:104-117) */
  function AfterT1(s: State): State
    requires Shaped(s)
  {
    if CheckT1(s) then GiveWay(s) else s.(stress := Relax(s.stress))
  }

  /** schedule_timer_tick (pb-scheduler.c:94-117) */
  function ContinueTask(s: State): State
    requires Active(s)
  {
    AfterT2Active(s);
    AfterT1(AfterT2(s))
  }

  /** The state in which a tick takes its decision: the current task has retired a tick's worth. */
  function Ticked(s: State): (r: State)
    requires Active(s)
    ensures Active(r)
  {
    RetireShaped(s, INS_PER_TICK);
    UpdateRetired(s, INS_PER_TICK)
  }

  /** The decision of pbs_run_timer_tick (pb-scheduler.c:42-46) */
  function Decide(s: State): State
    requires Active(s)
  {
    if s.Current().state == TaskFinished then FinishTask(s) else ContinueTask(s)
  }

  /** pbs_run_timer_tick (pb-scheduler.c:26-48) */
  function Tick(s: State): State
    requires Shaped(s) && (s.Current().End() || Active(s))
  {
    if s.Current().End() then s else
    var s1 := Decide(Ticked(s));
    s1.(ticks := s1.ticks + 1)
  }

  lemma SwitchInParts(s: State, left: State, t: State)
    requires Shaped(s) && s.cur + 1 < |s.tasks|
    requires left == Advance(s.(tasksFinished := s.tasksFinished + 1)) && t == SkipIfFree(left)
    ensures t == SwitchTask(s)
  {
  }

  lemma TickInParts(s: State, decided: State, t: State)
    requires Active(s) && decided == Decide(Ticked(s)) && t == decided.(ticks := decided.ticks + 1)
    ensures t == Tick(s)
  {
  }

  // ----- what a tick did -----

  datatype Event =
    | Halted                  // the cursor was on the sentinel
    | Completed               // the current task was finished and left
    | Preempted(pid: int)     // the current task's stack was moved back
    | NoSlot                  // it should have been preempted but had no slot to go to
    | Continued

  function EventOf(s: State): Event
    requires Shaped(s) && (s.Current().End() || Active(s))
  {
    if s.Current().End() then Halted else
    var s1 := Ticked(s);
    if s1.Current().state == TaskFinished then Completed else
    AfterT2Active(s1);
    var s2 := AfterT2(s1);
    if !CheckT1(s2) then Continued
    else if InsertionSlot(s2.tasks, s2.cur, s2.Current().pid) == -2 then NoSlot
    else Preempted(s2.Current().pid)
  }

  /** Whether this tick raises a T2 signal. */
  predicate SignalsT2(s: State)
    requires Shaped(s) && (s.Current().End() || Active(s))
  {
    && !s.Current().End()
    && Ticked(s).Current().state != TaskFinished
    && T2Due(Ticked(s))
  }
}
