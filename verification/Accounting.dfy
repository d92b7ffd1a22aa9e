/** The books: instructions retired by the plan and by each process, against the tasks of the list. */
module Accounting {
  import opened Entities
  import opened Totals
  import opened Model
  import opened Layout

  predicate ValidScope(s: State, scope: Scope) {
    scope.OfProcess? ==> 0 <= scope.pid < s.numProcesses
  }

  /** The counter that the program keeps for this scope. */
  function RetiredBy(s: State, scope: Scope): int
    requires Shaped(s) && ValidScope(s, scope)
  {
    match scope
    case WholePlan => s.retired
    case OfProcess(p) => s.processes[p].retired
  }

  /** Real lengths of what is finished, plus what is booked on the slots of the rest. */
  function Booked(ts: seq<Task>, cur: int, scope: Scope): int
    requires 0 <= cur <= |ts|
  {
    Total(Actual(scope), ts[..cur]) + Total(OnSlot(scope), ts[cur..])
  }

  ghost predicate Balanced(s: State) {
    && Shaped(s)
    && forall scope :: ValidScope(s, scope) ==> RetiredBy(s, scope) == Booked(s.tasks, s.cur, scope)
  }

  /** What is booked on slots is what tasks have run, in every scope. */
  ghost predicate Conserved(ts: seq<Task>) {
    forall scope :: Total(OnSlot(scope), ts) == Total(OnTask(scope), ts)
  }

  /** Two lists that differ in nothing the books depend on. */
  predicate SameWork(a: seq<Task>, b: seq<Task>) {
    && |a| == |b|
    && forall i :: 0 <= i < |a| ==>
         && a[i].id == b[i].id && a[i].pid == b[i].pid && a[i].actual == b[i].actual
         && a[i].retiredTask == b[i].retiredTask && a[i].retiredSlot == b[i].retiredSlot
  }

  predicate SameRetired(a: seq<Process>, b: seq<Process>) {
    |a| == |b| && forall p :: 0 <= p < |a| ==> a[p].retired == b[p].retired
  }

  lemma SameWorkTotals(a: seq<Task>, b: seq<Task>, cur: int, scope: Scope)
    requires SameWork(a, b) && 0 <= cur <= |a|
    ensures Booked(a, cur, scope) == Booked(b, cur, scope)
    ensures Total(OnSlot(scope), a) == Total(OnSlot(scope), b)
    ensures Total(OnTask(scope), a) == Total(OnTask(scope), b)
  {
    TotalSame(Actual(scope), a[..cur], b[..cur]);
    TotalSame(OnSlot(scope), a[cur..], b[cur..]);
    TotalSame(OnSlot(scope), a, b);
    TotalSame(OnTask(scope), a, b);
  }

  lemma SameBooks(s: State, t: State)
    requires Balanced(s) && Conserved(s.tasks) && Shaped(t)
    requires SameWork(s.tasks, t.tasks) && s.cur == t.cur
    requires s.retired == t.retired && SameRetired(s.processes, t.processes) && s.numProcesses == t.numProcesses
    ensures Balanced(t) && Conserved(t.tasks)
  {
    forall scope | ValidScope(t, scope) ensures RetiredBy(t, scope) == Booked(t.tasks, t.cur, scope) {
      assert ValidScope(s, scope);
      SameWorkTotals(s.tasks, t.tasks, s.cur, scope);
    }
    forall scope ensures Total(OnSlot(scope), t.tasks) == Total(OnTask(scope), t.tasks) {
      SameWorkTotals(s.tasks, t.tasks, s.cur, scope);
    }
  }

  lemma SplitTotal(g: Gauge, ts: seq<Task>, cur: int)
    requires 0 <= cur <= |ts|
    ensures Total(g, ts) == Total(g, ts[..cur]) + Total(g, ts[cur..])
  {
    assert ts == ts[..cur] + ts[cur..];
    TotalConcat(g, ts[..cur], ts[cur..]);
  }

  // ----- retiring -----

  /** The slot that is charged exists, is unfinished and of the same process. */
  lemma RetireTouches(s: State, n: int)
    requires LaidOut(s) && Active(s)
    ensures var t := RetireOnTask(s.Current(), n);
            var ts1 := s.tasks[s.cur := t];
            var o := SlotIndex(ts1, s.cur);
            && s.cur <= o < |s.tasks| - 1
            && s.tasks[o].Real() && s.tasks[o].pid == s.Current().pid
            && ts1[o].retiredSlot == s.tasks[o].retiredSlot
            && RetireInTasks(s.tasks, s.cur, n) == ts1[o := ts1[o].(retiredSlot := ts1[o].retiredSlot + n)]
  {
    ActiveIsBeforeTheEnd(s);
    var s1 := s.(tasks := s.tasks[s.cur := RetireOnTask(s.Current(), n)]);
    assert forall i :: 0 <= i < |s.tasks| - 1 ==> GoodEntry(s.tasks[i], s.processes, s.numProcesses);
    assert Shaped(s1);
    SameLayoutOrdered(s, s1);
    SlotLookupSucceeds(s1);
  }

  lemma RetireTotals(s: State, n: int, scope: Scope)
    requires LaidOut(s) && Active(s)
    ensures var r := RetireInTasks(s.tasks, s.cur, n);
            var d := if InScope(scope, s.Current()) then n else 0;
            && r[..s.cur] == s.tasks[..s.cur]
            && Booked(r, s.cur, scope) == Booked(s.tasks, s.cur, scope) + d
            && Total(OnSlot(scope), r) == Total(OnSlot(scope), s.tasks) + d
            && Total(OnTask(scope), r) == Total(OnTask(scope), s.tasks) + d
  {
    RetireTouches(s, n);
    var ts, cur := s.tasks, s.cur;
    var t := RetireOnTask(ts[cur], n);
    var ts1 := ts[cur := t];
    var o := SlotIndex(ts1, cur);
    var u := ts1[o].(retiredSlot := ts1[o].retiredSlot + n);
    TotalUpdateBehind(OnSlot(scope), ts, cur, cur, t);
    TotalUpdateBehind(OnSlot(scope), ts1, cur, o, u);
    TotalUpdateBehind(OnTask(scope), ts, cur, cur, t);
    TotalUpdateBehind(OnTask(scope), ts1, cur, o, u);
    SplitTotal(OnSlot(scope), ts, cur);
    SplitTotal(OnTask(scope), ts, cur);
    SplitTotal(OnSlot(scope), ts1[o := u], cur);
    SplitTotal(OnTask(scope), ts1[o := u], cur);
  }

  /** Booking a tick on a slot keeps both books, whoever owns the slot (plan.c:30-43). */
  lemma RetireBooks(s: State, n: int)
    requires LaidOut(s) && Active(s)
    requires Balanced(s) && Conserved(s.tasks)
    ensures Balanced(Retire(s, n)) && Conserved(Retire(s, n).tasks)
  {
    ActiveIsBeforeTheEnd(s);
    var t := Retire(s, n);
    assert Active(t) by { RetireActive(s, n); }
    forall scope | ValidScope(t, scope) ensures RetiredBy(t, scope) == Booked(t.tasks, t.cur, scope) {
      assert ValidScope(s, scope);
      RetireTotals(s, n, scope);
    }
    forall scope ensures Total(OnSlot(scope), t.tasks) == Total(OnTask(scope), t.tasks) {
      RetireTotals(s, n, scope);
    }
  }

  lemma RetireNothing(s: State)
    requires Shaped(s)
    ensures SameWork(s.tasks, Retire(s, 0).tasks)
    ensures SameRetired(s.processes, Retire(s, 0).processes)
  {
  }

  // ----- rotating -----

  lemma GiveToTotal(g: Gauge, owner: int, stack: seq<Task>)
    ensures Total(g, GiveTo(owner, stack)) == Total(g, stack)
  {
    TotalSame(g, GiveTo(owner, stack), stack);
  }

  /** A rotation moves no weight across the cursor and loses none, whatever is weighed. */
  lemma RotateTotals(g: Gauge, ts: seq<Task>, cur: int, k: int, slot: int)
    requires 0 <= cur && 0 <= k && cur + k <= slot + 1 < |ts|
    ensures var r := Rotate(ts, cur, k, slot);
            r[..cur] == ts[..cur] && Total(g, r[cur..]) == Total(g, ts[cur..]) && Total(g, r) == Total(g, ts)
  {
    var r := Rotate(ts, cur, k, slot);
    var stack, mid, rest := ts[cur..cur + k], ts[cur + k..slot + 1], ts[slot + 1..];
    var moved := GiveTo(ts[slot + 1].id, stack);
    assert ts[cur..] == stack + (mid + rest);
    assert r[cur..] == mid + (moved + rest);
    TotalConcat(g, stack, mid + rest);
    TotalConcat(g, mid, rest);
    TotalConcat(g, mid, moved + rest);
    TotalConcat(g, moved, rest);
    GiveToTotal(g, ts[slot + 1].id, stack);
    SplitTotal(g, ts, cur);
    SplitTotal(g, r, cur);
  }

  lemma RotateBooks(s: State, k: int, slot: int)
    requires Balanced(s) && Conserved(s.tasks)
    requires 0 <= k && s.cur + k <= slot + 1 < |s.tasks|
    ensures var t := s.(tasks := Rotate(s.tasks, s.cur, k, slot)); Balanced(t) && Conserved(t.tasks)
  {
    var t := s.(tasks := Rotate(s.tasks, s.cur, k, slot));
    RotateShaped(s, k, slot);
    forall scope | ValidScope(t, scope) ensures RetiredBy(t, scope) == Booked(t.tasks, t.cur, scope) {
      assert ValidScope(s, scope);
      RotateTotals(OnSlot(scope), s.tasks, s.cur, k, slot);
    }
    forall scope ensures Total(OnSlot(scope), t.tasks) == Total(OnTask(scope), t.tasks) {
      RotateTotals(OnSlot(scope), s.tasks, s.cur, k, slot);
      RotateTotals(OnTask(scope), s.tasks, s.cur, k, slot);
    }
  }

  // ----- the parts of a tick -----

  lemma SignalBooks(s: State, kind: SignalKind)
    requires Active(s) && Balanced(s) && Conserved(s.tasks)
    ensures 0 <= s.curProcess < |s.processes|
    ensures Balanced(RaiseSignal(s, kind)) && Conserved(RaiseSignal(s, kind).tasks)
  {
    ActiveIsBeforeTheEnd(s);
    RaiseSignalShaped(s, kind);
    SameBooks(s, RaiseSignal(s, kind));
  }

  /** Leaving a free slot changes no book; leaving a task turns its slot entry into its real length. */
  lemma AdvanceBooked(s: State, scope: Scope)
    requires Shaped(s) && s.cur + 1 < |s.tasks|
    ensures var t := Advance(s);
            && Booked(t.tasks, t.cur, scope) ==
                 Booked(s.tasks, s.cur, scope)
                 + Weight(Actual(scope), s.Current()) - Weight(OnSlot(scope), s.Current())
            && SameWork(s.tasks, t.tasks)
  {
    var t := Advance(s);
    TotalStep(Actual(scope), s.tasks, s.cur);
    TotalStep(OnSlot(scope), s.tasks, s.cur);
    SameWorkTotals(s.tasks, t.tasks, t.cur, scope);
  }

  lemma AdvanceConserved(s: State)
    requires Shaped(s) && s.cur + 1 < |s.tasks| && Conserved(s.tasks)
    ensures Conserved(Advance(s).tasks)
  {
    forall scope ensures Total(OnSlot(scope), Advance(s).tasks) == Total(OnTask(scope), Advance(s).tasks) {
      AdvanceBooked(s, scope);
      SameWorkTotals(s.tasks, Advance(s).tasks, s.cur, scope);
    }
  }

  lemma SkipIfFreeBooks(s: State)
    requires Shaped(s) && Balanced(s) && Conserved(s.tasks)
    requires s.Current().Free() ==> Advance(s).tasks[0].planned >= 0
    ensures Balanced(SkipIfFree(s)) && Conserved(SkipIfFree(s).tasks)
  {
    if s.Current().Free() {
      var t := Advance(s);
      forall scope | ValidScope(t, scope) ensures RetiredBy(t, scope) == Booked(t.tasks, t.cur, scope) {
        assert ValidScope(s, scope);
        AdvanceBooked(s, scope);
      }
      AdvanceConserved(s);
      var n := -t.tasks[0].planned;
      RetireShaped(t, n);
      if n == 0 { RetireNothing(t); }
      SameBooks(t, SkipIfFree(s));
    }
  }

  /** What schedule_task_finished does to the counters and the list, scope by scope. */
  lemma SettleRetired(s: State, scope: Scope)
    requires Active(s) && ValidScope(s, scope)
    ensures Active(Settle(s)) && Settle(s).cur == s.cur && Settle(s).numProcesses == s.numProcesses
    ensures SameWork(s.tasks, Settle(s).tasks)
    ensures RetiredBy(Settle(s), scope) ==
              RetiredBy(s, scope) + Weight(Actual(scope), s.Current()) - Weight(OnSlot(scope), s.Current())
  {
    ActiveIsBeforeTheEnd(s);
    SettleActive(s);
  }

  /**
   * Leaving a task keeps the books balanced if the counters were corrected by the difference between
   * its real length and what is booked on its slot.
   */
  lemma LeaveTaskBooks(s: State, u: State)
    requires Balanced(s) && Conserved(s.tasks)
    requires Shaped(u) && u.cur == s.cur && u.cur + 1 < |u.tasks| && u.numProcesses == s.numProcesses
    requires SameWork(s.tasks, u.tasks)
    requires forall scope :: ValidScope(s, scope) ==>
               RetiredBy(u, scope) ==
               RetiredBy(s, scope) + Weight(Actual(scope), s.Current()) - Weight(OnSlot(scope), s.Current())
    ensures Balanced(Advance(u)) && Conserved(Advance(u).tasks)
  {
    var t := Advance(u);
    forall scope ensures Total(OnSlot(scope), u.tasks) == Total(OnTask(scope), u.tasks) {
      SameWorkTotals(s.tasks, u.tasks, s.cur, scope);
    }
    AdvanceConserved(u);
    forall scope | ValidScope(t, scope) ensures RetiredBy(t, scope) == Booked(t.tasks, t.cur, scope) {
      assert ValidScope(s, scope);
      SameWorkTotals(s.tasks, u.tasks, s.cur, scope);
      AdvanceBooked(u, scope);
    }
  }

  /**
   * Finishing a task: the surplus that schedule_task_finished takes back is exactly what was booked
   * on the task's slot beyond its real length (pb-scheduler.c:58, 79-80).
   */
  lemma SettleBooks(s: State, finished: int)
    requires Active(s) && Balanced(s) && Conserved(s.tasks)
    ensures Active(Settle(s)) && s.cur + 1 < |s.tasks|
    ensures var t := Advance(Settle(s).(tasksFinished := finished)); Balanced(t) && Conserved(t.tasks)
  {
    ActiveIsBeforeTheEnd(s);
    SettleRetired(s, WholePlan);
    var u := Settle(s).(tasksFinished := finished);
    forall scope | ValidScope(s, scope)
      ensures RetiredBy(u, scope) ==
        RetiredBy(s, scope) + Weight(Actual(scope), s.Current()) - Weight(OnSlot(scope), s.Current())
    {
      SettleRetired(s, scope);
    }
    LeaveTaskBooks(s, u);
  }

  lemma MoveStackBooks(s: State)
    requires LaidOut(s) && Active(s) && Balanced(s) && Conserved(s.tasks)
    requires InsertionSlot(s.tasks, s.cur, s.Current().pid) != -2
    ensures Balanced(MoveStack(s)) && Conserved(MoveStack(s).tasks)
  {
    ActiveIsBeforeTheEnd(s);
    StackFitsSlot(s.tasks, s.cur);
    var slot := InsertionSlot(s.tasks, s.cur, s.Current().pid);
    var k := StackSize(s.tasks, s.cur);
    RotateBooks(s, k, slot);
    var s1 := s.(tasks := Rotate(s.tasks, s.cur, k, slot));
    EnterShaped(s1);
    SameBooks(s1, Enter(s1));
  }

  lemma ForceFinishBooks(s: State)
    requires LaidOut(s) && Active(s) && Balanced(s) && Conserved(s.tasks)
    requires s.Current().retiredTask <= s.Current().actual
    ensures Balanced(ForceFinish(s)) && Conserved(ForceFinish(s).tasks)
  {
    var n := s.Current().actual - s.Current().retiredTask;
    RetireBooks(s, n);
    MarkedBooks(Retire(s, n), ForceFinish(s));
  }

  /** The books do not depend on the plan's status. */
  lemma MarkedBooks(s: State, t: State)
    requires Balanced(s) && Conserved(s.tasks) && t == s.(status := t.status)
    ensures Balanced(t) && Conserved(t.tasks)
  {
    forall scope | ValidScope(t, scope) ensures RetiredBy(t, scope) == Booked(t.tasks, t.cur, scope) {
      assert ValidScope(s, scope);
    }
  }

  lemma PreemptBooks(s: State)
    requires LaidOut(s) && Active(s) && Balanced(s) && Conserved(s.tasks)
    requires s.Current().retiredTask <= s.Current().actual
    ensures Balanced(Preempt(s)) && Conserved(Preempt(s).tasks)
  {
    CountPreemptionLaidOut(s);
    var s1 := CountPreemption(s);
    SameBooks(s, s1);
    if InsertionSlot(s1.tasks, s1.cur, s1.Current().pid) == -2 {
      ForceFinishBooks(s1);
    } else {
      MoveStackBooks(s1);
    }
  }
}
