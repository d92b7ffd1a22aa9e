/** What a tick does to every entry of the list and to every counter, told in fields. */
module Effects {
  import opened Config
  import opened Entities
  import opened Model
  import opened Layout
  import opened Progress
  import opened Invariant
  import opened Steps
  import opened Lateness
  import opened Checkers
  import opened Decisions

  /** A task after `n` more of its instructions: it is finished once it has run its real length. */
  function AfterRunning(t: Task, n: int): Task {
    var ran := t.retiredTask + n;
    t.(retiredTask := ran,
       state := if ran >= t.actual then TaskFinished else t.state,
       lateness := if ran >= t.actual then t.actual - t.planned
                   else if ran > t.planned then ran - t.planned
                   else t.lateness)
  }

  /** `n` instructions of the current task, booked on the slot that entry `j` owns (task.c:16-29; plan.c:31-39). */
  function Booked(t: Task, isCurrent: bool, isOwner: bool, n: int): Task {
    var t1 := if isCurrent then AfterRunning(t, n) else t;
    t1.(retiredSlot := t1.retiredSlot + if isOwner then n else 0)
  }

  lemma RetireEntry(s: State, n: int, j: int, i: int)
    requires LaidOut(s) && Active(s) && Owns(s.tasks, s.cur, j) && 0 <= i < |s.tasks|
    ensures RetireInTasks(s.tasks, s.cur, n)[i] == Booked(s.tasks[i], i == s.cur, i == j, n)
  {
    ActiveIsBeforeTheEnd(s);
    var s1 := s.(tasks := s.tasks[s.cur := RetireOnTask(s.Current(), n)]);
    RetiredOnTaskShaped(s, n);
    SameLayoutOrdered(s, s1);
    assert Owns(s1.tasks, s1.cur, j);
    OwnerIsUnique(s1, j);
  }

  // ----- signals -----

  /** A plan in percent of what it was, for the entries of one process from the cursor to the sentinel. */
  function Scaled(t: Task, i: int, cur: int, end: int, pid: int, percent: int): Task {
    if cur <= i < end && t.pid == pid then t.(planned := percent * t.planned / 100) else t
  }

  /**
   * A T2 signal stretches the current task's process to 105 percent, a TM2 signal shrinks process 0 to 95
   * percent, both from the cursor on and rounded down; no other entry changes, and of the rest of the
   * plan only the log, the stress and the two latenesses (prediction_failure_signaling.c:20-81; plan.c:157-160).
   */
  lemma SignalChanges(s: State, kind: SignalKind, i: int)
    requires Active(s) && Lengths(s.tasks) && kind != NoSignal && 0 <= i < |s.tasks|
    ensures 0 <= s.curProcess < |s.processes|
    ensures var t := RaiseSignal(s, kind);
            var pid, percent := if kind == T2 then s.Current().pid else 0, if kind == T2 then 105 else 95;
            && |t.tasks| == |s.tasks|
            && t.tasks[i] == Scaled(s.tasks[i], i, s.cur, |s.tasks| - 1, pid, percent)
            && t == s.(tasks := t.tasks, stress := 3000, lateness := 0,
                       signals := s.signals + [Signal(s.Current().id, s.Current().pid, s.ticks, kind)],
                       processes := s.processes[s.curProcess := s.processes[s.curProcess].(lateness := 0)])
  {
    ActiveIsBeforeTheEnd(s);
    assert s.processes[s.curProcess].pid == s.Current().pid;
    if i < |s.tasks| - 1 { assert s.tasks[i].planned >= 0; }
  }

  /** Entry `i` after the booking and the signal of a tick. */
  function BookedAndScaled(s: State, j: int, i: int): Task
    requires Active(s) && 0 <= i < |s.tasks|
  {
    var t := Booked(s.tasks[i], i == s.cur, i == j, 10_000_000);
    var pid, percent := if FinishesTask(s) then 0 else s.Current().pid, if FinishesTask(s) then 95 else 105;
    if NewSignals(s) == [] then t else Scaled(t, i, s.cur, |s.tasks| - 1, pid, percent)
  }

  /** The state in which a tick leaves or goes on with its task. */
  function Decided(s: State): State
    requires Active(s)
  {
    if FinishesTask(s) then (SettleActive(Ticked(s)); Settle(Ticked(s)))
    else (AfterT2Active(Ticked(s)); AfterT2(Ticked(s)))
  }

  lemma SettledEntry(b: State, i: int)
    requires InvMidTick(b) && 0 <= i < |b.tasks|
    ensures |Settle(b).tasks| == |b.tasks| && Settle(b).cur == b.cur
    ensures Settle(b).tasks[i] == if TM2Due(b) then Scaled(b.tasks[i], i, b.cur, |b.tasks| - 1, 0, 95) else b.tasks[i]
  {
    ActiveIsBeforeTheEnd(b);
    if TM2Due(b) { SignalChanges(b, TM2, i); }
  }

  lemma AfterT2Entry(b: State, i: int)
    requires InvMidTick(b) && 0 <= i < |b.tasks|
    ensures |AfterT2(b).tasks| == |b.tasks| && AfterT2(b).cur == b.cur
    ensures AfterT2(b).tasks[i] ==
            if T2Due(b) then Scaled(b.tasks[i], i, b.cur, |b.tasks| - 1, b.Current().pid, 105) else b.tasks[i]
  {
    ActiveIsBeforeTheEnd(b);
    if T2Due(b) { SignalChanges(b, T2, i); }
  }

  lemma DecidedEntry(s: State, j: int, i: int)
    requires Inv(s) && Active(s) && Owns(s.tasks, s.cur, j) && 0 <= i < |s.tasks|
    ensures |Decided(s).tasks| == |s.tasks| && Decided(s).cur == s.cur
    ensures Decided(s).tasks[i] == BookedAndScaled(s, j, i)
  {
    TickedKeeps(s);
    BookingFields(s);
    RetireEntry(s, INS_PER_TICK, j, i);
    if FinishesTask(s) {
      TM2DueInNumbers(s);
      SettledEntry(Ticked(s), i);
    } else {
      T2DueInNumbers(s);
      AfterT2Entry(Ticked(s), i);
    }
  }

  // ----- free slots and completions -----

  /** Entry `i` after the cursor of `s` has passed a free slot, if it was on one. */
  function Passed(s: State, i: int): Task
    requires 0 <= s.cur < |s.tasks| && 0 <= i < |s.tasks|
  {
    if !s.Current().Free() || i != s.cur + 1 then s.tasks[i] else
    var t := s.tasks[i].(state := TaskRunning);
    if s.tasks[0].planned == 0 then AfterRunning(t, 0) else t
  }

  lemma SkipEntry(s: State, i: int)
    requires Shaped(s) && s.tasks[0].planned >= 0 && 0 <= i < |s.tasks|
    ensures |SkipIfFree(s).tasks| == |s.tasks| && SkipIfFree(s).tasks[i] == Passed(s, i)
  {
  }

  /** The finished task is left: the next entry runs, a free slot is passed (pb-scheduler.c:124-137, 158-175). */
  lemma CompletedEntry(s: State, j: int, i: int)
    requires Inv(s) && Active(s) && FinishesTask(s) && Owns(s.tasks, s.cur, j) && 0 <= i < |s.tasks|
    ensures |Left(Ticked(s)).tasks| == |s.tasks| == |Tick(s).tasks| && Left(Ticked(s)).cur == s.cur + 1 < |s.tasks|
    ensures Left(Ticked(s)).tasks[i] ==
            var t := BookedAndScaled(s, j, i); if i == s.cur + 1 then t.(state := TaskRunning) else t
    ensures Tick(s).tasks[i] == Passed(Left(Ticked(s)), i)
  {
    TickedKeeps(s);
    BookingFields(s);
    DecidedEntry(s, j, i);
    LeftCursor(Ticked(s));
    LeftOrdered(Ticked(s));
    LeftProgress(Ticked(s));
    FinishIsLeaving(Ticked(s));
    SkipEntry(Left(Ticked(s)), i);
  }

  /** A task that goes on: nothing happens behind the booking and the signal (pb-scheduler.c:94-116). */
  lemma ContinuedEntry(s: State, j: int, i: int)
    requires Inv(s) && Active(s) && Owns(s.tasks, s.cur, j) && 0 <= i < |s.tasks|
    requires EventOf(s) == Continued
    ensures |Tick(s).tasks| == |s.tasks| && Tick(s).tasks[i] == BookedAndScaled(s, j, i)
  {
    BookingFields(s);
    DecidedEntry(s, j, i);
  }

  // ----- preemptions -----

  lemma DecidedIsLate(s: State, j: int)
    requires Inv(s) && Active(s) && GivesWay(s) && Owns(s.tasks, s.cur, j)
    ensures !FinishesTask(s) && InvMidTick(Decided(s)) && Decided(s).cur == s.cur
    ensures SameLayout(s.tasks, Decided(s).tasks) && Decided(s).Current().state != TaskFinished
    ensures CheckT1(Decided(s)) && Owns(Decided(s).tasks, s.cur, j)
    ensures InsertionSlot(s.tasks, s.cur, s.Current().pid) == -2 <==> EventOf(s) == NoSlot
  {
    BookingFields(s);
    TickedKeeps(s);
    AfterT2Keeps(Ticked(s));
    SameLayoutChains(s.tasks, Ticked(s).tasks, Decided(s).tasks);
    SameLayoutSearches(s.tasks, Decided(s).tasks, s.cur);
  }

  /** The tick in which a task is cut short, from the T1 check on. */
  lemma GiveWayIs(s: State, j: int)
    requires Inv(s) && Active(s) && GivesWay(s) && Owns(s.tasks, s.cur, j)
    ensures Shaped(Decided(s)) && Shaped(Preempt(Decided(s)))
    ensures Tick(s).tasks == SkipIfFree(Preempt(Decided(s))).tasks
  {
    DecidedIsLate(s, j);
    PreemptShaped(Decided(s));
  }

  /** Running the current task to its real length at once. */
  lemma ForceFinishEntry(s: State, j: int, i: int)
    requires LaidOut(s) && Active(s) && Owns(s.tasks, s.cur, j) && 0 <= i < |s.tasks|
    requires s.Current().retiredTask <= s.Current().actual
    ensures |ForceFinish(s).tasks| == |s.tasks| && ForceFinish(s).cur == s.cur
    ensures ForceFinish(s).tasks[i] ==
            Booked(s.tasks[i], i == s.cur, i == j, s.Current().actual - s.Current().retiredTask)
  {
    RetireEntry(s, s.Current().actual - s.Current().retiredTask, j, i);
  }

  /** The same for a task that is cut short: it counts a preemption, too. */
  function CutShort(t: Task, isCurrent: bool, isOwner: bool, missing: int): Task {
    Booked(t.(wasPreempted := t.wasPreempted + if isCurrent then 1 else 0), isCurrent, isOwner, missing)
  }

  lemma CutShortEntry(s: State, j: int, i: int)
    requires InvMidTick(s) && s.Current().state != TaskFinished
    requires Owns(s.tasks, s.cur, j) && 0 <= i < |s.tasks|
    requires InsertionSlot(s.tasks, s.cur, s.Current().pid) == -2
    ensures Shaped(Preempt(s)) && |SkipIfFree(Preempt(s)).tasks| == |s.tasks|
    ensures SkipIfFree(Preempt(s)).tasks[i] ==
            CutShort(s.tasks[i], i == s.cur, i == j, s.Current().actual - s.Current().retiredTask)
  {
    NoSlotLayout(s);
    CountPreemptionLaidOut(s);
    var s1 := CountPreemption(s);
    assert Owns(s1.tasks, s1.cur, j);
    assert JustTicked(s.Current());
    ForceFinishEntry(s1, j, i);
  }

  lemma DecidedHasNoSlot(s: State, j: int)
    requires Inv(s) && Active(s) && EventOf(s) == NoSlot && Owns(s.tasks, s.cur, j)
    ensures var d := Decided(s);
            0 <= d.cur < |d.tasks| && InsertionSlot(d.tasks, d.cur, d.Current().pid) == -2
  {
    DecidedIsLate(s, j);
    SameLayoutSearches(s.tasks, Decided(s).tasks, s.cur);
  }

  lemma DecidedCurrent(s: State, j: int)
    requires Inv(s) && Active(s) && Owns(s.tasks, s.cur, j)
    ensures Decided(s).cur == s.cur && s.cur < |Decided(s).tasks|
    ensures Decided(s).Current().actual == s.Current().actual
    ensures Decided(s).Current().retiredTask == s.Current().retiredTask + 10_000_000
  {
    DecidedEntry(s, j, s.cur);
  }

  /**
   * A late task without a slot to go to counts a preemption and is run to its real length at once, booked
   * on the slot it ran in (prediction_failure_handling.c:36-43, 56-62).
   */
  lemma NoSlotEntry(s: State, j: int, i: int)
    requires Inv(s) && Active(s) && Owns(s.tasks, s.cur, j) && 0 <= i < |s.tasks|
    requires EventOf(s) == NoSlot
    ensures |Tick(s).tasks| == |s.tasks|
    ensures Tick(s).tasks[i] ==
            CutShort(BookedAndScaled(s, j, i), i == s.cur, i == j,
                     s.Current().actual - (s.Current().retiredTask + 10_000_000))
  {
    DecidedIsLate(s, j);
    GiveWayIs(s, j);
    DecidedEntry(s, j, i);
    DecidedCurrent(s, j);
    DecidedHasNoSlot(s, j);
    CutShortEntry(Decided(s), j, i);
  }

  /** Where the entries of the list come from if the current task is preempted into a slot. */
  function CameFrom(s: State, i: int): (m: int)
    requires Active(s) && 0 <= i < |s.tasks| && InsertionSlot(s.tasks, s.cur, s.Current().pid) != -2
    ensures 0 <= m < |s.tasks|
  {
    StackFitsSlot(s.tasks, s.cur);
    var k, slot := StackSize(s.tasks, s.cur), InsertionSlot(s.tasks, s.cur, s.Current().pid);
    RotateAt(s.tasks, s.cur, k, slot, i);
    RotateSource(s.cur, k, slot, i)
  }

  /** Entry `i` after such a preemption, of a list in which entry `CameFrom(s, i)` is `t` by now. */
  function Relocated(s: State, t: Task, i: int): Task
    requires Active(s) && 0 <= i < |s.tasks| && InsertionSlot(s.tasks, s.cur, s.Current().pid) != -2
  {
    StackFitsSlot(s.tasks, s.cur);
    var k, slot, m := StackSize(s.tasks, s.cur), InsertionSlot(s.tasks, s.cur, s.Current().pid), CameFrom(s, i);
    t.(wasPreempted := t.wasPreempted + (if m == s.cur then 1 else 0),
       slotOwner := if s.cur <= m < s.cur + k then s.tasks[slot + 1].id else t.slotOwner,
       state := if i == s.cur then TaskRunning else t.state)
  }

  lemma RelocatedList(d: State, i: int)
    requires LaidOut(d) && Active(d)
    requires 0 <= i < |d.tasks| && InsertionSlot(d.tasks, d.cur, d.Current().pid) != -2
    ensures |Preempt(d).tasks| == |d.tasks| && Preempt(d).tasks[i] == Relocated(d, d.tasks[CameFrom(d, i)], i)
  {
    PreemptionChanges(d, i);
    RelocatedIs(d, d.tasks[CameFrom(d, i)], i, Preempt(d).tasks[i]);
  }

  lemma RelocatedIs(d: State, t: Task, i: int, u: Task)
    requires Active(d) && 0 <= i < |d.tasks| && InsertionSlot(d.tasks, d.cur, d.Current().pid) != -2
    requires InsertionSlot(d.tasks, d.cur, d.Current().pid) + 1 < |d.tasks|
    requires var k, slot := StackSize(d.tasks, d.cur), InsertionSlot(d.tasks, d.cur, d.Current().pid);
             var m := RotateSource(d.cur, k, slot, i);
             u == t.(wasPreempted := t.wasPreempted + (if m == d.cur then 1 else 0),
                     slotOwner := if d.cur <= m < d.cur + k then d.tasks[slot + 1].id else t.slotOwner,
                     state := if i == d.cur then TaskRunning else t.state)
    ensures u == Relocated(d, t, i)
  {
  }

  lemma RelocatedAlike(s: State, d: State, t: Task, i: int)
    requires Active(s) && Active(d) && SameLayout(s.tasks, d.tasks) && d.cur == s.cur
    requires 0 <= i < |s.tasks| && InsertionSlot(s.tasks, s.cur, s.Current().pid) != -2
    ensures InsertionSlot(d.tasks, d.cur, d.Current().pid) != -2
    ensures CameFrom(d, i) == CameFrom(s, i) && Relocated(d, t, i) == Relocated(s, t, i)
  {
    SameLayoutSearches(s.tasks, d.tasks, s.cur);
    StackFitsSlot(s.tasks, s.cur);
  }

  /**
   * A late task with a slot to go to counts a preemption; its stack goes to just before the next task of
   * the process and into that task's slot, the entry that came up runs, and a free slot is passed
   * (prediction_failure_handling.c:30-52, 72-163; pb-scheduler.c:104-111).
   */
  lemma PreemptedEntry(s: State, j: int, i: int)
    requires Inv(s) && Active(s) && Owns(s.tasks, s.cur, j) && 0 <= i < |s.tasks|
    requires EventOf(s).Preempted?
    ensures InsertionSlot(s.tasks, s.cur, s.Current().pid) != -2
    ensures Shaped(Decided(s)) && |Preempt(Decided(s)).tasks| == |s.tasks|
    ensures Preempt(Decided(s)).tasks[i] == Relocated(s, BookedAndScaled(s, j, CameFrom(s, i)), i)
    ensures Preempt(Decided(s)).cur == s.cur && |Tick(s).tasks| == |s.tasks|
    ensures Tick(s).tasks[i] == Passed(Preempt(Decided(s)), i)
  {
    DecidedIsLate(s, j);
    GiveWayIs(s, j);
    var d := Decided(s);
    var m := CameFrom(s, i);
    RelocatedAlike(s, d, d.tasks[m], i);
    RelocatedList(d, i);
    DecidedEntry(s, j, m);
    PreemptedCharge(d);
    SkipEntry(Preempt(d), i);
  }

  lemma PreemptedCharge(s: State)
    requires InvMidTick(s) && s.Current().state != TaskFinished
    ensures Shaped(Preempt(s)) && Preempt(s).cur == s.cur && Preempt(s).tasks[0].planned >= 0
  {
    assert JustTicked(s.Current());
    PreemptShaped(s);
    PreemptNotLater(s);
    PreemptProgress(s);
  }

  // ----- counters -----

  /** The parts of a process that no tick changes. */
  predicate SamePlan(p: Process, q: Process) {
    p.pid == q.pid && p.tasksRemaining == q.tasksRemaining && p.buffer == q.buffer && p.planLength == q.planLength
  }

  predicate SameTable(s: State, t: State) {
    && t.numProcesses == s.numProcesses && t.planned == s.planned && |t.processes| == |s.processes|
    && forall p :: 0 <= p < |s.processes| ==> SamePlan(s.processes[p], t.processes[p])
  }

  lemma SkipKeepsTable(s: State)
    requires Shaped(s)
    ensures SameTable(s, SkipIfFree(s)) && SkipIfFree(s).tasksFinished == s.tasksFinished
  {
  }

  lemma PreemptKeepsTable(s: State)
    requires Shaped(s)
    ensures Shaped(Preempt(s)) && SameTable(s, Preempt(s)) && Preempt(s).tasksFinished == s.tasksFinished
  {
    PreemptShaped(s);
  }

  lemma DecidedKeepsTable(s: State)
    requires Active(s)
    ensures SameTable(s, Decided(s)) && Decided(s).tasksFinished == s.tasksFinished
  {
    ActiveIsBeforeTheEnd(s);
    ActiveIsBeforeTheEnd(Ticked(s));
  }

  lemma FinishKeepsTable(s: State)
    requires InvMidTick(s) && s.Current().state == TaskFinished
    ensures SameTable(Settle(s), FinishTask(s)) && FinishTask(s).tasksFinished == Settle(s).tasksFinished + 1
  {
    LeftOrdered(s);
    FinishIsLeaving(s);
    SkipKeepsTable(Left(s));
  }

  lemma ContinueKeepsTable(s: State)
    requires InvMidTick(s)
    ensures Active(AfterT2(s))
    ensures SameTable(AfterT2(s), ContinueTask(s)) && ContinueTask(s).tasksFinished == AfterT2(s).tasksFinished
  {
    AfterT2Keeps(s);
    PreemptKeepsTable(AfterT2(s));
    SkipKeepsTable(Preempt(AfterT2(s)));
  }

  /** No tick changes the table of processes but for lateness and retired; each finished task is counted. */
  lemma TickKeepsTable(s: State)
    requires Inv(s) && Active(s)
    ensures SameTable(s, Tick(s))
    ensures Tick(s).tasksFinished == s.tasksFinished + if FinishesTask(s) then 1 else 0
  {
    BookingFields(s);
    TickedKeeps(s);
    DecidedKeepsTable(s);
    if FinishesTask(s) {
      FinishKeepsTable(Ticked(s));
    } else {
      ContinueKeepsTable(Ticked(s));
    }
  }
}
