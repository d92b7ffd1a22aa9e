/**
 * The slot-ownership invariant: what the task list looks like between two ticks. None of it is
 * written down in the program; all of its lookups by slot owner rest on it.
 */
module Layout {
  import opened Entities
  import opened Model

  /** Entry `j` owns the slot in which entry `i` runs: a task of the same process, not before `i`. */
  predicate Owns(ts: seq<Task>, i: int, j: int)
    requires 0 <= i < |ts|
  {
    i <= j < |ts| - 1 && ts[j].id == ts[i].slotOwner && ts[j].pid == ts[i].pid
  }

  ghost predicate HasOwner(ts: seq<Task>, i: int)
    requires 0 <= i < |ts|
  {
    exists j :: Owns(ts, i, j)
  }

  predicate DistinctIds(ts: seq<Task>) {
    forall i, j :: 0 <= i < j < |ts| && ts[i].Real() ==> ts[i].id != ts[j].id
  }

  /** Every unfinished task has an owner. */
  ghost predicate OwnersAhead(ts: seq<Task>, cur: int)
    requires 0 <= cur
  {
    forall i {:trigger HasOwner(ts, i)} :: cur <= i < |ts| - 1 && ts[i].Real() ==> HasOwner(ts, i)
  }

  predicate FreePair(ts: seq<Task>, i: int)
    requires 0 <= i < |ts| - 1
  {
    ts[i].Free() && ts[i + 1].Free()
  }

  /** No two neighbouring unfinished entries are both free. */
  predicate FreeApart(ts: seq<Task>, cur: int)
    requires 0 <= cur
  {
    forall i {:trigger FreePair(ts, i)} :: cur <= i < |ts| - 1 ==> !FreePair(ts, i)
  }

  /** The part of the invariant that also holds while the cursor is still on a free slot. */
  ghost predicate Ordered(s: State) {
    && Shaped(s)
    && DistinctIds(s.tasks)
    && OwnersAhead(s.tasks, s.cur)
    && FreeApart(s.tasks, s.cur)
  }

  /** The cursor is on a task, or on the sentinel, and cur_process follows it. */
  predicate Settled(s: State) {
    && Shaped(s)
    && !s.Current().Free()
    && s.curProcess == s.Current().pid
  }

  ghost predicate LaidOut(s: State) {
    Ordered(s) && Settled(s)
  }

  lemma SettledCases(s: State)
    requires Settled(s)
    ensures s.Current().End() || Active(s)
    ensures s.Current().End() <==> s.cur == |s.tasks| - 1
  {
    if s.cur < |s.tasks| - 1 {
      assert GoodEntry(s.tasks[s.cur], s.processes, s.numProcesses);
    }
  }

  /** Two lists with the same tasks in the same places and slots. */
  predicate SameLayout(a: seq<Task>, b: seq<Task>) {
    && |a| == |b|
    && forall i :: 0 <= i < |a| ==>
         && a[i].id == b[i].id && a[i].pid == b[i].pid
         && a[i].slotOwner == b[i].slotOwner && a[i].actual == b[i].actual
  }

  lemma SameLayoutChains(a: seq<Task>, b: seq<Task>, c: seq<Task>)
    requires SameLayout(a, b) && SameLayout(b, c)
    ensures SameLayout(a, c)
  {
  }

  /** Steps that keep ids, pids and owners in place keep the order. */
  lemma SameLayoutOrdered(s: State, t: State)
    requires Ordered(s) && Shaped(t)
    requires SameLayout(s.tasks, t.tasks)
    requires s.cur <= t.cur
    ensures Ordered(t)
  {
    forall i | t.cur <= i < |t.tasks| - 1 && t.tasks[i].Real() ensures HasOwner(t.tasks, i) {
      assert HasOwner(s.tasks, i);
      var j :| Owns(s.tasks, i, j);
      assert Owns(t.tasks, i, j);
    }
    forall i | t.cur <= i < |t.tasks| - 1 ensures !FreePair(t.tasks, i) {
      assert !FreePair(s.tasks, i);
    }
  }

  /** The layout does not depend on lateness, status, counters, stress or signals. */
  lemma SameListLaidOut(s: State, t: State)
    requires LaidOut(s)
    requires t.tasks == s.tasks && t.cur == s.cur && t.curProcess == s.curProcess
    requires t.processes == s.processes && t.numProcesses == s.numProcesses
    ensures LaidOut(t)
  {
  }

  /**
   * The lookup behind every booking succeeds: the slot index is an unfinished task of the current
   * process, so find_task_with_task_id never returns null for it
   * (plan.c:34-39, 68-78; threshold_checking.c:44-49).
   */
  lemma SlotLookupSucceeds(s: State)
    requires Ordered(s) && s.Current().Real() && s.cur < |s.tasks| - 1
    ensures var o := SlotIndex(s.tasks, s.cur);
            && s.cur <= o < |s.tasks| - 1
            && s.tasks[o].Real()
            && s.tasks[o].pid == s.Current().pid
            && s.tasks[o].id == s.Current().slotOwner
            && Owns(s.tasks, s.cur, o)
  {
    var ts := s.tasks;
    assert HasOwner(ts, s.cur);
    var j :| Owns(ts, s.cur, j);
    assert GoodEntry(ts[s.cur], s.processes, s.numProcesses) && GoodEntry(ts[j], s.processes, s.numProcesses);
    var o := IndexOf(ts, ts[s.cur].slotOwner);
    if ts[s.cur].slotOwner != ts[s.cur].id {
      assert o != -1;
      assert ts[o].id == ts[j].id;
      assert o == j;
    }
  }

  /**
   * One preemption keeps the order: the moved tasks now run in the slot of the task they were put
   * in front of, and all other tasks still see their owners ahead
   * (prediction_failure_handling.c:132-163).
   */
  lemma RotateOrdered(s: State, k: int, slot: int)
    requires Ordered(s) && s.Current().Real() && s.cur < |s.tasks| - 1
    requires slot == InsertionSlot(s.tasks, s.cur, s.Current().pid) != -2
    requires k == StackSize(s.tasks, s.cur)
    ensures 1 <= k && s.cur + k <= slot < slot + 1 < |s.tasks|
    ensures Ordered(s.(tasks := Rotate(s.tasks, s.cur, k, slot)))
  {
    StackFitsSlot(s.tasks, s.cur);
    RotateShaped(s, k, slot);
    RotateDistinct(s, k, slot);
    RotateOwners(s, k, slot);
    RotateFreeApart(s, k, slot);
  }

  lemma RotateDistinct(s: State, k: int, slot: int)
    requires DistinctIds(s.tasks)
    requires 0 <= s.cur && 0 <= k && s.cur + k <= slot + 1 < |s.tasks|
    ensures DistinctIds(Rotate(s.tasks, s.cur, k, slot))
  {
    var ts, r := s.tasks, Rotate(s.tasks, s.cur, k, slot);
    forall i, j | 0 <= i < j < |r| && r[i].Real() ensures r[i].id != r[j].id {
      RotateAt(ts, s.cur, k, slot, i);
      RotateAt(ts, s.cur, k, slot, j);
      var a, b := RotateSource(s.cur, k, slot, i), RotateSource(s.cur, k, slot, j);
      assert a != b && ts[a].id == r[i].id && ts[b].id == r[j].id;
    }
  }

  lemma RotateOwners(s: State, k: int, slot: int)
    requires Ordered(s)
    requires 1 <= k && s.cur + k <= slot < slot + 1 < |s.tasks|
    requires forall m :: s.cur <= m < s.cur + k ==> s.tasks[m].pid == s.tasks[slot + 1].pid
    requires s.tasks[slot + 1].pid >= 0
    ensures OwnersAhead(Rotate(s.tasks, s.cur, k, slot), s.cur)
  {
    var ts, r := s.tasks, Rotate(s.tasks, s.cur, k, slot);
    forall i | s.cur <= i < |r| - 1 && r[i].Real() ensures HasOwner(r, i) {
      RotateAt(ts, s.cur, k, slot, i);
      var a := RotateSource(s.cur, k, slot, i);
      if s.cur <= a < s.cur + k {
        RotateAt(ts, s.cur, k, slot, slot + 1);
        assert Owns(r, i, slot + 1);
      } else {
        assert HasOwner(ts, a);
        var b :| Owns(ts, a, b);
        var j := if b <= slot then b - k else b;
        RotateAt(ts, s.cur, k, slot, j);
        assert Owns(r, i, j);
      }
    }
  }

  /** The seams of a rotation lie between a free slot and a task at worst. */
  lemma RotateFreePair(s: State, k: int, slot: int, i: int)
    requires Shaped(s) && FreeApart(s.tasks, s.cur)
    requires 1 <= k && s.cur + k <= slot < slot + 1 < |s.tasks|
    requires forall m :: s.cur <= m < s.cur + k ==> s.tasks[m].pid >= 0
    requires s.tasks[slot + 1].pid >= 0
    requires s.cur <= i < |s.tasks| - 1
    ensures !FreePair(Rotate(s.tasks, s.cur, k, slot), i)
  {
    var ts := s.tasks;
    RotateAt(ts, s.cur, k, slot, i);
    RotateAt(ts, s.cur, k, slot, i + 1);
    var a, b := RotateSource(s.cur, k, slot, i), RotateSource(s.cur, k, slot, i + 1);
    assert GoodEntry(ts[a], s.processes, s.numProcesses);
    if b == a + 1 {
      assert !FreePair(ts, a);
    } else {
      assert s.cur <= b < s.cur + k || b == slot + 1;
      assert b < |ts| - 1 ==> GoodEntry(ts[b], s.processes, s.numProcesses);
    }
  }

  lemma RotateFreeApart(s: State, k: int, slot: int)
    requires Shaped(s) && FreeApart(s.tasks, s.cur)
    requires 1 <= k && s.cur + k <= slot < slot + 1 < |s.tasks|
    requires forall m :: s.cur <= m < s.cur + k ==> s.tasks[m].pid == s.tasks[slot + 1].pid
    requires s.tasks[slot + 1].pid >= 0
    ensures FreeApart(Rotate(s.tasks, s.cur, k, slot), s.cur)
  {
    var r := Rotate(s.tasks, s.cur, k, slot);
    forall i | s.cur <= i < |r| - 1 ensures !FreePair(r, i) {
      RotateFreePair(s, k, slot, i);
    }
  }

  // ----- the parts of a tick -----

  lemma RetireLaidOut(s: State, n: int)
    requires LaidOut(s) && n >= 0
    ensures LaidOut(Retire(s, n))
    ensures SameLayout(s.tasks, Retire(s, n).tasks)
  {
    RetireShaped(s, n);
    SameLayoutOrdered(s, Retire(s, n));
  }

  lemma SignalLaidOut(s: State, kind: SignalKind)
    requires LaidOut(s) && Active(s)
    ensures 0 <= s.curProcess < |s.processes|
    ensures LaidOut(RaiseSignal(s, kind)) && Active(RaiseSignal(s, kind))
    ensures SameLayout(s.tasks, RaiseSignal(s, kind).tasks)
  {
    ActiveIsBeforeTheEnd(s);
    RaiseSignalShaped(s, kind);
    SameLayoutOrdered(s, RaiseSignal(s, kind));
  }

  lemma AdvanceOrdered(s: State)
    requires Ordered(s) && s.cur + 1 < |s.tasks|
    ensures Ordered(Advance(s))
    ensures SameLayout(s.tasks, Advance(s).tasks)
    ensures !Advance(s).Current().Free() ==> Settled(Advance(s))
  {
    SameLayoutOrdered(s, Advance(s));
  }

  /** Behind a free slot there is never another one (pb-scheduler.c:158-174). */
  lemma SkipIfFreeLaidOut(s: State)
    requires Ordered(s)
    requires !s.Current().Free() ==> Settled(s)
    ensures LaidOut(SkipIfFree(s))
    ensures SameLayout(s.tasks, SkipIfFree(s).tasks)
  {
    if s.Current().Free() {
      AdvanceOrdered(s);
      assert !FreePair(s.tasks, s.cur);
      var s1 := Advance(s);
      var n := -s1.tasks[0].planned;
      if n >= 0 {
        RetireLaidOut(s1, n);
        assert SkipIfFree(s) == Retire(s1, n);
      } else {
        SameListLaidOut(s1, SkipIfFree(s));
      }
    }
  }

  lemma MoveStackOrdered(s: State)
    requires LaidOut(s) && Active(s)
    requires InsertionSlot(s.tasks, s.cur, s.Current().pid) != -2
    ensures Ordered(MoveStack(s))
    ensures !MoveStack(s).Current().Free() ==> Settled(MoveStack(s))
  {
    ActiveIsBeforeTheEnd(s);
    var slot := InsertionSlot(s.tasks, s.cur, s.Current().pid);
    var k := StackSize(s.tasks, s.cur);
    RotateOrdered(s, k, slot);
    var s1 := s.(tasks := Rotate(s.tasks, s.cur, k, slot));
    EnterShaped(s1);
    SameLayoutOrdered(s1, Enter(s1));
  }

  lemma ForceFinishLaidOut(s: State)
    requires LaidOut(s)
    requires s.Current().retiredTask <= s.Current().actual
    ensures LaidOut(ForceFinish(s))
    ensures SameLayout(s.tasks, ForceFinish(s).tasks)
  {
    var n := s.Current().actual - s.Current().retiredTask;
    RetireLaidOut(s, n);
    assert UpdateRetired(s, n) == Retire(s, n);
    SameListLaidOut(Retire(s, n), ForceFinish(s));
  }

  lemma CountPreemptionLaidOut(s: State)
    requires LaidOut(s)
    ensures LaidOut(CountPreemption(s))
    ensures SameLayout(s.tasks, CountPreemption(s).tasks)
  {
    CountPreemptionShaped(s);
    SameLayoutOrdered(s, CountPreemption(s));
  }

  /** A preemption, with or without a slot to go to, leaves the list ordered and the cursor followed. */
  lemma PreemptOrdered(s: State)
    requires LaidOut(s) && Active(s)
    requires s.Current().retiredTask <= s.Current().actual
    ensures Ordered(Preempt(s))
    ensures !Preempt(s).Current().Free() ==> Settled(Preempt(s))
  {
    CountPreemptionLaidOut(s);
    var s1 := CountPreemption(s);
    if InsertionSlot(s1.tasks, s1.cur, s1.Current().pid) == -2 {
      ForceFinishLaidOut(s1);
    } else {
      MoveStackOrdered(s1);
    }
  }
}
