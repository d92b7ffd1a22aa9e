/** How far the tasks are: finished before the cursor, at rest behind it. */
module Progress {
  import opened Config
  import opened Entities
  import opened Totals
  import opened Model
  import opened Layout
  import opened Accounting

  /** A task that was left: it ran its real length, and at most a tick more. */
  predicate Done(t: Task) {
    t.state == TaskFinished && t.actual <= t.retiredTask <= t.actual + INS_PER_TICK
  }

  /** An unfinished task between two ticks. */
  predicate Resting(t: Task) {
    0 <= t.retiredTask <= t.actual && (t.state == TaskFinished ==> t.retiredTask == t.actual)
  }

  /** The current task right after it retired the instructions of a tick. */
  predicate JustTicked(t: Task) {
    if t.state == TaskFinished
    then t.actual <= t.retiredTask <= t.actual + INS_PER_TICK
    else 0 <= t.retiredTask < t.actual
  }

  predicate Lengths(ts: seq<Task>) {
    forall i :: 0 <= i < |ts| - 1 ==>
      ts[i].planned >= 0 && ts[i].retiredSlot >= 0 && (ts[i].Real() ==> ts[i].actual >= 0)
  }

  predicate DoneBefore(ts: seq<Task>, cur: int)
    requires cur <= |ts|
  {
    forall i :: 0 <= i < cur && ts[i].Real() ==> Done(ts[i])
  }

  predicate RestingFrom(ts: seq<Task>, from: int)
    requires 0 <= from
  {
    forall i :: from <= i < |ts| - 1 && ts[i].Real() ==> Resting(ts[i])
  }

  /** `restingFrom` is the cursor between ticks and the entry after it during one. */
  predicate Progressing(s: State, restingFrom: int) {
    && Shaped(s)
    && s.cur <= restingFrom
    && Lengths(s.tasks)
    && DoneBefore(s.tasks, s.cur)
    && RestingFrom(s.tasks, restingFrom)
    && s.tasksFinished == Total(TaskCount, s.tasks[..s.cur])
  }

  /** Steps that move no entry, change no identity, no length and no progress. */
  predicate SameProgress(a: seq<Task>, b: seq<Task>) {
    && |a| == |b|
    && forall i :: 0 <= i < |a| ==>
         && a[i].id == b[i].id && a[i].actual == b[i].actual && a[i].retiredTask == b[i].retiredTask
         && (a[i].planned >= 0 ==> b[i].planned >= 0)
         && (a[i].retiredSlot >= 0 ==> b[i].retiredSlot >= 0)
  }

  /** A state change that never makes a task finished that was not. */
  predicate NoNewFinish(a: seq<Task>, b: seq<Task>, cur: int)
    requires |a| == |b|
  {
    && (forall i :: 0 <= i < |a| && b[i].state == TaskFinished ==>
          a[i].state == TaskFinished || Resting(b[i]) || b[i].End())
    && (forall i :: 0 <= i < cur && i < |a| ==> a[i].state == b[i].state)
  }

  lemma SameProgressKeeps(s: State, t: State, restingFrom: int)
    requires Progressing(s, restingFrom) && Shaped(t)
    requires SameProgress(s.tasks, t.tasks) && NoNewFinish(s.tasks, t.tasks, s.cur)
    requires t.cur == s.cur && t.tasksFinished == s.tasksFinished
    ensures Progressing(t, restingFrom)
  {
    TotalSame(TaskCount, s.tasks[..s.cur], t.tasks[..s.cur]);
  }

  /** The tick of the current task (task.c:16-29). */
  lemma TickedProgress(s: State)
    requires LaidOut(s) && Active(s) && Progressing(s, s.cur)
    ensures Progressing(Ticked(s), s.cur + 1) && JustTicked(Ticked(s).Current())
  {
    ActiveIsBeforeTheEnd(s);
    RetireTouches(s, INS_PER_TICK);
    var t := Ticked(s);
    assert t.tasks[..s.cur] == s.tasks[..s.cur];
    assert Resting(s.Current());
  }

  lemma SignalProgress(s: State, kind: SignalKind, restingFrom: int)
    requires Active(s) && Progressing(s, restingFrom)
    ensures 0 <= s.curProcess < |s.processes|
    ensures Progressing(RaiseSignal(s, kind), restingFrom)
    ensures SameProgress(s.tasks, RaiseSignal(s, kind).tasks)
    ensures RaiseSignal(s, kind).Current().state == s.Current().state
  {
    ActiveIsBeforeTheEnd(s);
    RaiseSignalShaped(s, kind);
    SameProgressKeeps(s, RaiseSignal(s, kind), restingFrom);
  }

  lemma SettleProgress(s: State)
    requires Active(s) && Progressing(s, s.cur + 1)
    ensures Active(Settle(s)) && Progressing(Settle(s), s.cur + 1)
    ensures Settle(s).cur == s.cur && Settle(s).tasksFinished == s.tasksFinished
    ensures Done(s.Current()) ==> Done(Settle(s).Current())
  {
    SettleActive(s);
    ActiveIsBeforeTheEnd(s);
    var s1 := if TM2Due(s) then RaiseSignal(s, TM2) else s;
    if TM2Due(s) { SignalProgress(s, TM2, s.cur + 1); }
    assert Settle(s).tasks == s1.tasks;
  }

  /** Leaving the finished current task; `finished` was counted before the cursor moved. */
  lemma AdvanceProgress(s: State)
    requires Shaped(s) && s.cur + 1 < |s.tasks|
    requires Lengths(s.tasks) && DoneBefore(s.tasks, s.cur) && RestingFrom(s.tasks, s.cur + 1)
    requires s.Current().Real() ==> Done(s.Current())
    requires s.tasksFinished == Total(TaskCount, s.tasks[..s.cur + 1])
    ensures Progressing(Advance(s), s.cur + 1)
  {
    var t := Advance(s);
    assert t.tasks[..s.cur + 1] == s.tasks[..s.cur + 1];
  }

  /** Leaving the current task, which is done. */
  lemma LeavingProgress(s: State)
    requires Active(s) && Progressing(s, s.cur + 1) && Done(s.Current())
    ensures s.cur + 1 < |s.tasks|
    ensures Progressing(Advance(s.(tasksFinished := s.tasksFinished + 1)), s.cur + 1)
  {
    ActiveIsBeforeTheEnd(s);
    TotalStep(TaskCount, s.tasks, s.cur);
    AdvanceProgress(s.(tasksFinished := s.tasksFinished + 1));
  }

  lemma RetireNothingProgress(s: State)
    requires Settled(s) && Progressing(s, s.cur)
    ensures Progressing(Retire(s, 0), s.cur)
  {
    SettledCases(s);
    RetireShaped(s, 0);
    var t := Retire(s, 0);
    assert s.Current().Real() ==> Resting(s.Current());
    SameProgressKeeps(s, t, s.cur);
  }

  lemma ChargeProgress(t: State, n: int)
    requires Settled(t) && Progressing(t, t.cur) && n <= 0
    ensures Progressing(UpdateRetired(t, n), t.cur)
  {
    if n == 0 {
      RetireNothingProgress(t);
    }
  }

  lemma FreeSlotProgress(s: State)
    requires Ordered(s) && Progressing(s, s.cur) && s.Current().Free()
    ensures Progressing(SkipFreeSlot(s), s.cur + 1)
  {
    TotalStep(TaskCount, s.tasks, s.cur);
    AdvanceProgress(s);
    AdvanceOrdered(s);
    assert !FreePair(s.tasks, s.cur);
    ChargeProgress(Advance(s), -Advance(s).tasks[0].planned);
  }

  lemma SkipIfFreeProgress(s: State)
    requires Ordered(s) && Progressing(s, s.cur)
    requires !s.Current().Free() ==> Settled(s)
    ensures Progressing(SkipIfFree(s), SkipIfFree(s).cur)
  {
    if s.Current().Free() {
      FreeSlotProgress(s);
    }
  }

  lemma RotateProgress(s: State, k: int, slot: int)
    requires Progressing(s, s.cur)
    requires 0 <= k && s.cur + k <= slot + 1 < |s.tasks|
    ensures Progressing(s.(tasks := Rotate(s.tasks, s.cur, k, slot)), s.cur)
  {
    RotateShaped(s, k, slot);
    var r := Rotate(s.tasks, s.cur, k, slot);
    assert r[..s.cur] == s.tasks[..s.cur];
    forall i | 0 <= i < |r| - 1
      ensures r[i].planned >= 0 && r[i].retiredSlot >= 0 && (r[i].Real() ==> r[i].actual >= 0)
      ensures i >= s.cur && r[i].Real() ==> Resting(r[i])
    {
      RotateAt(s.tasks, s.cur, k, slot, i);
    }
  }

  lemma MoveStackProgress(s: State)
    requires Active(s) && Progressing(s, s.cur)
    requires InsertionSlot(s.tasks, s.cur, s.Current().pid) != -2
    ensures Progressing(MoveStack(s), s.cur)
  {
    StackFitsSlot(s.tasks, s.cur);
    var slot, k := InsertionSlot(s.tasks, s.cur, s.Current().pid), StackSize(s.tasks, s.cur);
    RotateProgress(s, k, slot);
    var s1 := s.(tasks := Rotate(s.tasks, s.cur, k, slot));
    EnterShaped(s1);
    SameProgressKeeps(s1, Enter(s1), s.cur);
  }

  lemma PreemptProgress(s: State)
    requires LaidOut(s) && Active(s) && Progressing(s, s.cur)
    ensures Progressing(Preempt(s), s.cur)
  {
    CountPreemptionLaidOut(s);
    var s1 := CountPreemption(s);
    SameProgressKeeps(s, s1, s.cur);
    if InsertionSlot(s1.tasks, s1.cur, s1.Current().pid) == -2 {
      ForceFinishProgress(s1);
    } else {
      MoveStackProgress(s1);
    }
  }

  /** Running the current task to its real length. */
  lemma RetireMissingProgress(s: State)
    requires LaidOut(s) && Active(s) && Progressing(s, s.cur)
    ensures var t := Retire(s, s.Current().actual - s.Current().retiredTask);
            && Progressing(t, s.cur) && t.cur == s.cur
            && t.Current().retiredTask == s.Current().actual == t.Current().actual
            && t.Current().state == TaskFinished
  {
    ActiveIsBeforeTheEnd(s);
    var n := s.Current().actual - s.Current().retiredTask;
    assert Resting(s.Current());
    RetireTouches(s, n);
    RetireKeepsShape(s, n);
    assert Retire(s, n).tasks[..s.cur] == s.tasks[..s.cur];
  }

  /** The no-slot path runs the task exactly to its real length (prediction_failure_handling.c:56-62). */
  lemma ForceFinishProgress(s: State)
    requires LaidOut(s) && Active(s) && Progressing(s, s.cur)
    ensures Progressing(ForceFinish(s), s.cur)
    ensures ForceFinish(s).Current().retiredTask == s.Current().actual == ForceFinish(s).Current().actual
    ensures ForceFinish(s).Current().state == TaskFinished
  {
    assert Resting(s.Current());
    RetireMissingProgress(s);
  }
}
