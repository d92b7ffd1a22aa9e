/** The program's own checks of a plan, proved to decide what they are meant to decide. */
module Checkers {
  import opened Config
  import opened Entities
  import opened Totals
  import opened Model
  import opened Layout
  import opened Accounting
  import opened Steps
  import opened ProcessOrder
  import opened Scheduler

  /** `last` holds, for each process, the greatest id among its tasks in `ts[..i]`, or 0. */
  ghost predicate GreatestIds(ts: seq<Task>, i: int, last: seq<int>)
    requires 0 <= i <= |ts|
  {
    && (forall j :: 0 <= j < i && ts[j].Real() ==> 0 <= ts[j].pid < |last| && ts[j].id <= last[ts[j].pid])
    && (forall q :: 0 <= q < |last| ==> last[q] >= 0 && (last[q] == 0 || exists j :: HasId(ts, i, q, last[q], j)))
  }

  predicate HasId(ts: seq<Task>, i: int, pid: int, id: int, j: int) {
    0 <= j < i <= |ts| && ts[j].Real() && ts[j].pid == pid && ts[j].id == id
  }

  lemma NextGreatest(ts: seq<Task>, i: int, last: seq<int>)
    requires 0 <= i < |ts| && GreatestIds(ts, i, last)
    requires ts[i].Real() ==> 0 <= ts[i].pid < |last| && ts[i].id >= last[ts[i].pid]
    ensures GreatestIds(ts, i + 1, if ts[i].Real() then last[ts[i].pid := ts[i].id] else last)
  {
    var next := if ts[i].Real() then last[ts[i].pid := ts[i].id] else last;
    var n := i + 1;
    forall q | 0 <= q < |next| ensures next[q] >= 0 && (next[q] == 0 || exists j :: HasId(ts, n, q, next[q], j)) {
      if ts[i].Real() && q == ts[i].pid {
        assert HasId(ts, n, q, next[q], i);
      } else if last[q] != 0 {
        var j :| HasId(ts, i, q, last[q], j);
        assert HasId(ts, n, q, next[q], j);
      }
    }
  }

  /** A task that is not below the greatest id keeps the order; one that is breaks it. */
  lemma GreatestDecides(ts: seq<Task>, i: int, last: seq<int>)
    requires 0 <= i < |ts| && GreatestIds(ts, i, last) && Ascends(ts[..i])
    requires ts[i].Real() ==> 0 <= ts[i].pid < |last|
    ensures !ts[i].Real() || ts[i].id >= last[ts[i].pid] ==> Ascends(ts[..i + 1])
    ensures ts[i].Real() && ts[i].id < last[ts[i].pid] ==> !Ascends(ts)
  {
    assert ts[..i + 1] == ts[..i] + [ts[i]];
    if ts[i].Real() && ts[i].id < last[ts[i].pid] && last[ts[i].pid] != 0 {
      var j :| HasId(ts, i, ts[i].pid, last[ts[i].pid], j);
    }
  }

  /** An entry is compared with the last id of its process (prediction_failure_handling.c:209-217). */
  method CompareWithLast(ghost ts: seq<Task>, ghost i: nat, t: Task, lastId: array<int>) returns (below: bool)
    requires i < |ts| && t == ts[i] && !t.End() && (t.Real() ==> 0 <= t.pid < lastId.Length)
    requires GreatestIds(ts, i, lastId[..]) && Ascends(ts[..i])
    modifies lastId
    ensures below ==> !Ascends(ts)
    ensures !below ==> Ascends(ts[..i + 1]) && GreatestIds(ts, i + 1, lastId[..])
  {
    ghost var last := lastId[..];
    GreatestDecides(ts, i, last);
    if t.id != -1 {
      if t.id < lastId[t.pid] {
        return true;
      }
      lastId[t.pid] := t.id;
      assert lastId[..] == last[t.pid := t.id];
    }
    NextGreatest(ts, i, last);
    below := false;
  }

  /** order_is_kept (prediction_failure_handling.c:205-220): ids increase along the list within each process. */
  method OrderIsKept(p: Plan) returns (kept: bool)
    requires p.Valid()
    ensures kept <==> Ascends(p.View().tasks)
  {
    ghost var ts := p.View().tasks;
    p.SentinelIsFirstEnd();
    var lastId := new int[MAX_NUMBER_PROCESSES](_ => 0);
    var i := 0;
    while p.tasks[i].id != -2
      modifies lastId
      invariant 0 <= i <= p.end
      invariant GreatestIds(ts, i, lastId[..])
      invariant Ascends(ts[..i])
      decreases p.end - i
    {
      assert ts[i] == p.tasks[i] && GoodEntry(ts[i], p.processes[..], p.numProcesses);
      var below := CompareWithLast(ts, i, p.tasks[i], lastId);
      if below {
        return false;
      }
      i := i + 1;
    }
    assert ts[i] == p.tasks[i];
    GreatestDecides(ts, i, lastId[..]);
    assert ts[..i + 1] == ts;
    return true;
  }

  /** `found` is non-zero exactly at the ids of the tasks in `ts[..i]`. */
  ghost predicate Marked(ts: seq<Task>, i: int, found: seq<int>)
    requires 0 <= i <= |ts|
  {
    && (forall j :: 0 <= j < i && ts[j].Real() ==> 0 <= ts[j].id < |found| && found[ts[j].id] != 0)
    && (forall v :: 0 <= v < |found| && found[v] != 0 ==> exists j :: Bears(ts, i, v, j))
  }

  predicate Bears(ts: seq<Task>, i: int, id: int, j: int) {
    0 <= j < i <= |ts| && ts[j].Real() && ts[j].id == id
  }

  lemma NextMarked(ts: seq<Task>, i: int, found: seq<int>, next: seq<int>)
    requires 0 <= i < |ts| && Marked(ts, i, found)
    requires ts[i].Real() ==> 0 <= ts[i].id < |found| && found[ts[i].id] == 0 && next == found[ts[i].id := 1]
    requires !ts[i].Real() ==> next == found
    ensures Marked(ts, i + 1, next)
  {
    var n := i + 1;
    forall v | 0 <= v < |next| && next[v] != 0 ensures exists j :: Bears(ts, n, v, j) {
      if ts[i].Real() && v == ts[i].id {
        assert Bears(ts, n, v, i);
      } else {
        var j :| Bears(ts, i, v, j);
        assert Bears(ts, n, v, j);
      }
    }
  }

  /** A task whose id is not marked yet keeps the ids distinct; one whose id is marked does not. */
  lemma MarkDecides(ts: seq<Task>, i: int, found: seq<int>)
    requires 0 <= i < |ts| && Marked(ts, i, found) && DistinctIds(ts[..i])
    requires ts[i].Real() && 0 <= ts[i].id < |found|
    ensures found[ts[i].id] == 0 ==> DistinctIds(ts[..i + 1])
    ensures found[ts[i].id] != 0 ==> !DistinctIds(ts)
  {
    if found[ts[i].id] != 0 {
      var j :| Bears(ts, i, ts[i].id, j);
      assert ts[j].id == ts[i].id;
    } else {
      assert ts[..i + 1] == ts[..i] + [ts[i]];
    }
  }

  /** Free slots do not matter to distinctness. */
  lemma FreeSlotKeepsDistinct(ts: seq<Task>, i: int)
    requires 0 <= i < |ts| && !ts[i].Real() && DistinctIds(ts[..i])
    requires forall j :: 0 <= j < i && ts[j].Real() ==> ts[j].id != ts[i].id
    ensures DistinctIds(ts[..i + 1])
  {
    assert ts[..i + 1] == ts[..i] + [ts[i]];
  }

  /** A task's id is looked up and marked (prediction_failure_handling.c:237-241). */
  method MarkId(ghost ts: seq<Task>, ghost i: nat, id: int, found: array<int>) returns (again: bool)
    requires i < |ts| && ts[i].Real() && 0 <= id == ts[i].id < found.Length
    requires Marked(ts, i, found[..]) && DistinctIds(ts[..i])
    modifies found
    ensures again ==> !DistinctIds(ts)
    ensures !again ==> DistinctIds(ts[..i + 1]) && Marked(ts, i + 1, found[..])
  {
    ghost var before := found[..];
    MarkDecides(ts, i, before);
    again := found[id] != 0;
    if !again {
      found[id] := found[id] + 1;
      assert found[..] == before[id := 1];
      NextMarked(ts, i, before, found[..]);
    }
  }

  /**
   * no_id_is_duplicated (prediction_failure_handling.c:227-246). It marks ids in an array of
   * MAX_NUMBER_TASKS_IN_PLAN entries, so it can be asked only about ids below that.
   */
  method NoIdIsDuplicated(p: Plan) returns (distinct: bool)
    requires p.Valid()
    requires forall i :: 0 <= i < p.end && p.tasks[i].id != -1 ==> 0 <= p.tasks[i].id < MAX_NUMBER_TASKS_IN_PLAN
    ensures distinct <==> DistinctIds(p.View().tasks)
  {
    ghost var ts := p.View().tasks;
    p.SentinelIsFirstEnd();
    var found := new int[MAX_NUMBER_TASKS_IN_PLAN](_ => 0);
    var i := 0;
    while p.tasks[i].id != -2 || i >= MAX_NUMBER_TASKS_IN_PLAN
      modifies found
      invariant 0 <= i <= p.end
      invariant DistinctIds(ts[..i])
      invariant Marked(ts, i, found[..])
      decreases p.end - i
    {
      assert ts[i] == p.tasks[i];
      if p.tasks[i].id == -1 {
        FreeSlotKeepsDistinct(ts, i);
        NextMarked(ts, i, found[..], found[..]);
        i := i + 1;
        continue;
      }
      var again := MarkId(ts, i, p.tasks[i].id, found);
      if again {
        return false;
      }
      i := i + 1;
    }
    assert ts[i] == p.tasks[i];
    FreeSlotKeepsDistinct(ts, i);
    assert ts[..i + 1] == ts;
    return true;
  }

  /** calculate_length_plan (plan.c:145-154) */
  method CalculateLengthPlan(p: Plan) returns (sum: int)
    requires p.Valid()
    ensures sum == Total(Planned, p.View().tasks)
  {
    ghost var ts := p.View().tasks;
    p.SentinelIsFirstEnd();
    sum := 0;
    var i := 0;
    assert ts[..0] == [];
    while p.tasks[i].id != -2
      invariant 0 <= i <= p.end
      invariant sum == Total(Planned, ts[..i])
      decreases p.end - i
    {
      assert ts[i] == p.tasks[i];
      TotalStep(Planned, ts, i);
      sum := sum + p.tasks[i].planned;
      i := i + 1;
    }
    TotalStep(Planned, ts, i);
    assert ts[..i + 1] == ts;
  }

  lemma StackMovedPreserves(ts: seq<Task>, cur: int)
    requires 0 <= cur < |ts| && InsertionSlot(ts, cur, ts[cur].pid) != -2
    ensures multiset(Identities(StackMoved(ts, cur))) == multiset(Identities(ts))
    ensures Total(Planned, StackMoved(ts, cur)) == Total(Planned, ts)
  {
    StackFitsSlot(ts, cur);
    var k, slot := StackSize(ts, cur), InsertionSlot(ts, cur, ts[cur].pid);
    RotateIdentities(ts, cur, k, slot);
    RotateTotals(Planned, ts, cur, k, slot);
  }

  lemma MoveStackPreserves(s: State)
    requires LaidOut(s) && Active(s)
    requires InsertionSlot(s.tasks, s.cur, s.Current().pid) != -2
    ensures multiset(Identities(MoveStack(s).tasks)) == multiset(Identities(s.tasks))
    ensures Total(Planned, MoveStack(s).tasks) == Total(Planned, s.tasks)
  {
    MoveStackLayout(s);
    StackMovedPreserves(s.tasks, s.cur);
    SameLayoutIdentities(StackMoved(s.tasks, s.cur), MoveStack(s).tasks);
    TotalSame(Planned, StackMoved(s.tasks, s.cur), MoveStack(s).tasks);
  }

  /**
   * A preemption into a slot is a rotation and nothing else: distinct ids stay distinct, no entry is
   * lost or duplicated, and the length of the plan stays (prediction_failure_handling.c:46-47).
   */
  lemma PreemptionPreserves(s: State)
    requires LaidOut(s) && Active(s)
    requires InsertionSlot(s.tasks, s.cur, s.Current().pid) != -2
    ensures DistinctIds(Preempt(s).tasks)
    ensures multiset(Identities(Preempt(s).tasks)) == multiset(Identities(s.tasks))
    ensures Total(Planned, Preempt(s).tasks) == Total(Planned, s.tasks)
  {
    var s1 := CountPreemption(s);
    CountPreemptionLaidOut(s);
    SameLayoutSearches(s.tasks, s1.tasks, s.cur);
    TotalSame(Planned, s.tasks, s1.tasks);
    SameLayoutIdentities(s.tasks, s1.tasks);
    MoveStackOrdered(s1);
    MoveStackPreserves(s1);
    assert Preempt(s) == MoveStack(s1);
  }

  lemma MoveStackChanges(s: State, i: int)
    requires LaidOut(s) && Active(s)
    requires InsertionSlot(s.tasks, s.cur, s.Current().pid) != -2
    requires 0 <= i < |s.tasks|
    ensures |MoveStack(s).tasks| == |s.tasks|
    ensures var k, slot := StackSize(s.tasks, s.cur), InsertionSlot(s.tasks, s.cur, s.Current().pid);
            var m := RotateSource(s.cur, k, slot, i);
            && 0 <= m < |s.tasks|
            && slot + 1 < |s.tasks|
            && MoveStack(s).tasks[i] == s.tasks[m].(
                 slotOwner := if s.cur <= m < s.cur + k then s.tasks[slot + 1].id else s.tasks[m].slotOwner,
                 state := if i == s.cur then TaskRunning else s.tasks[m].state)
  {
    StackFitsSlot(s.tasks, s.cur);
    RotateAt(s.tasks, s.cur, StackSize(s.tasks, s.cur), InsertionSlot(s.tasks, s.cur, s.Current().pid), i);
  }

  /**
   * Entry by entry, what a preemption into a slot changes: the moved tasks are handed to the owner of
   * the slot they are put in, the preempted task counts one preemption more, and the task that became
   * current is running (prediction_failure_handling.c:36, 144-162).
   */
  lemma PreemptionChanges(s: State, i: int)
    requires LaidOut(s) && Active(s)
    requires InsertionSlot(s.tasks, s.cur, s.Current().pid) != -2
    requires 0 <= i < |s.tasks|
    ensures |Preempt(s).tasks| == |s.tasks|
    ensures var k, slot := StackSize(s.tasks, s.cur), InsertionSlot(s.tasks, s.cur, s.Current().pid);
            var m := RotateSource(s.cur, k, slot, i);
            && 0 <= m < |s.tasks|
            && slot + 1 < |s.tasks|
            && Preempt(s).tasks[i] == s.tasks[m].(
                 wasPreempted := s.tasks[m].wasPreempted + (if m == s.cur then 1 else 0),
                 slotOwner := if s.cur <= m < s.cur + k then s.tasks[slot + 1].id else s.tasks[m].slotOwner,
                 state := if i == s.cur then TaskRunning else s.tasks[m].state)
  {
    var s1 := CountPreemption(s);
    CountPreemptionLaidOut(s);
    SameLayoutSearches(s.tasks, s1.tasks, s.cur);
    MoveStackChanges(s1, i);
    assert Preempt(s) == MoveStack(s1);
  }

  predicate InLeadingRun(ts: seq<Task>, cur: int, m: int)
    requires 0 <= cur <= m < |ts|
  {
    forall x :: cur <= x <= m ==> ts[x].pid == ts[cur].pid
  }

  /** First entries of the process, then up to `slot` entries of others. */
  predicate RunThenOthers(ts: seq<Task>, cur: int, e: int, slot: int, pid: int) {
    && 0 <= cur < e <= slot < |ts|
    && (forall m :: cur <= m < e ==> ts[m].pid == pid)
    && (forall m :: e <= m <= slot ==> ts[m].pid != pid)
  }

  /** What find_slot_to_move_to answers, without its search (prediction_failure_handling.c:72-99). */
  lemma InsertionSlotMeaning(ts: seq<Task>, cur: int, pid: int)
    requires 0 <= cur < |ts| && ts[cur].pid == pid
    ensures var slot := InsertionSlot(ts, cur, pid);
            && (slot == -2 <==> forall m :: cur <= m < |ts| && ts[m].pid == pid ==> InLeadingRun(ts, cur, m))
            && (slot != -2 ==>
                && cur < slot < |ts| - 1
                && ts[slot].pid != pid && ts[slot + 1].pid == pid
                && exists e :: RunThenOthers(ts, cur, e, slot, pid))
  {
    var e := RunEnd(ts, cur, pid);
    var j := NextOf(ts, e, pid);
    assert ts[cur].pid == pid;
    if j < |ts| {
      assert !InLeadingRun(ts, cur, j) by { assert ts[e].pid != pid; }
      assert RunThenOthers(ts, cur, e, j - 1, pid);
    } else {
      forall m | cur <= m < |ts| && ts[m].pid == pid ensures InLeadingRun(ts, cur, m) {
        assert m < e;
      }
    }
  }

  predicate SharesSlot(t: Task, u: Task) {
    t.pid == u.pid && t.slotOwner == u.slotOwner
  }

  /** The stack is as long as process and slot owner stay those of the current task, and no longer. */
  lemma StackSizeMeaning(ts: seq<Task>, cur: int, k: int)
    requires 0 <= cur < |ts|
    ensures k == StackSize(ts, cur) <==>
            && 0 < k <= |ts| - cur
            && (forall m :: cur <= m < cur + k ==> SharesSlot(ts[m], ts[cur]))
            && (cur + k < |ts| ==> !SharesSlot(ts[cur + k], ts[cur]))
  {
    var e := StackEnd(ts, cur, ts[cur]);
    assert forall m :: cur <= m < e ==> SharesSlot(ts[m], ts[cur]);
    if k > 0 && cur + k < e {
      assert SharesSlot(ts[cur + k], ts[cur]);
    } else if 0 < k <= |ts| - cur && e < cur + k {
      assert !SharesSlot(ts[e], ts[cur]);
    }
  }
}
