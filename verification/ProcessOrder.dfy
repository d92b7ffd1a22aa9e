/**
 * Plans in which a process never has two tasks in a row, except in a run that closes the plan: there
 * a preemption always moves a whole run, so it merges runs, keeps every process's task order, and
 * can happen to a process only as often as it has tasks to merge with.
 */
module ProcessOrder {
  import opened Entities
  import opened Totals
  import opened Model
  import opened Layout
  import opened Iteration
  import opened Invariant
  import opened Steps

  predicate Neighbours(ts: seq<Task>, i: int)
    requires 0 <= i < |ts| - 1
  {
    ts[i].Real() && ts[i].pid == ts[i + 1].pid
  }

  /** From `i` to the sentinel all entries are of one process. */
  predicate ClosesPlan(ts: seq<Task>, i: int)
    requires 0 <= i < |ts|
  {
    forall m :: i <= m < |ts| - 1 ==> ts[m].pid == ts[i].pid
  }

  /** The hypothesis on a fresh plan: neighbours of one process only in a run that closes the plan. */
  predicate Separated(ts: seq<Task>) {
    forall i {:trigger Neighbours(ts, i)} :: 0 <= i < |ts| - 1 && Neighbours(ts, i) ==> ClosesPlan(ts, i)
  }

  /** Unfinished neighbours of one process share their slot owner, or are in the run that closes the plan. */
  predicate RunsShareOwner(ts: seq<Task>, cur: int)
    requires 0 <= cur
  {
    forall i {:trigger Neighbours(ts, i)} :: cur <= i < |ts| - 1 && Neighbours(ts, i) ==>
      ts[i].slotOwner == ts[i + 1].slotOwner || ClosesPlan(ts, i)
  }

  /** Entry `i` is in the first unfinished run of its process. */
  predicate InFirstRun(ts: seq<Task>, cur: int, i: int)
    requires 0 <= cur <= i < |ts|
  {
    forall k, m :: cur <= k <= m <= i && ts[k].pid == ts[i].pid ==> ts[m].pid == ts[i].pid
  }

  /** Only tasks in the first run of their process run in a slot that is not their own. */
  predicate GuestsInFirstRun(ts: seq<Task>, cur: int)
    requires 0 <= cur
  {
    forall i {:trigger InFirstRun(ts, cur, i)} :: cur <= i < |ts| - 1 && ts[i].Real() && ts[i].slotOwner != ts[i].id ==>
      InFirstRun(ts, cur, i)
  }

  predicate Grouped(ts: seq<Task>, cur: int)
    requires 0 <= cur
  {
    RunsShareOwner(ts, cur) && GuestsInFirstRun(ts, cur)
  }

  lemma SameLayoutGrouped(a: seq<Task>, b: seq<Task>, cur: int, later: int)
    requires SameLayout(a, b) && 0 <= cur <= later
    requires Grouped(a, cur)
    ensures Grouped(b, later)
  {
    forall i | later <= i < |b| - 1 && Neighbours(b, i)
      ensures b[i].slotOwner == b[i + 1].slotOwner || ClosesPlan(b, i)
    {
      assert Neighbours(a, i);
    }
    forall i | later <= i < |b| - 1 && b[i].Real() && b[i].slotOwner != b[i].id ensures InFirstRun(b, later, i) {
      assert InFirstRun(a, cur, i);
    }
  }

  lemma NextInRunSharesOwner(ts: seq<Task>, cur: int, x: int, slot: int)
    requires 0 <= cur < x <= slot < |ts| - 1 && RunsShareOwner(ts, cur)
    requires ts[x - 1].Real() && ts[x - 1].pid == ts[x].pid != ts[slot].pid
    ensures ts[x - 1].slotOwner == ts[x].slotOwner
  {
    assert Neighbours(ts, x - 1);
    assert !ClosesPlan(ts, x - 1) by { assert ts[slot].pid != ts[x - 1].pid; }
  }

  /** What a preemption moves is then the whole leading run of the process. */
  lemma StackIsWholeRun(ts: seq<Task>, cur: int)
    requires 0 <= cur < |ts| && RunsShareOwner(ts, cur)
    requires ts[cur].Real() && (forall i :: 0 <= i < |ts| && ts[i].pid == ts[cur].pid ==> ts[i].Real())
    requires InsertionSlot(ts, cur, ts[cur].pid) != -2
    ensures cur + StackSize(ts, cur) == RunEnd(ts, cur, ts[cur].pid)
  {
    StackFitsSlot(ts, cur);
    var e, x := RunEnd(ts, cur, ts[cur].pid), StackEnd(ts, cur, ts[cur]);
    if x < e {
      NextInRunSharesOwner(ts, cur, x, e);
    }
  }

  /** The setting of one preemption in a grouped list. */
  predicate Moving(ts: seq<Task>, cur: int, k: int, slot: int) {
    && 0 <= cur && 1 <= k && cur + k <= slot < slot + 1 < |ts| - 1
    && ts[slot + 1].Real()
    && (forall m :: cur <= m < cur + k ==> ts[m].pid == ts[slot + 1].pid)
    && (forall m :: cur + k <= m <= slot ==> ts[m].pid != ts[slot + 1].pid)
  }

  /** The task that the moved run is put in front of owns its slot. */
  lemma TargetIsAtHome(ts: seq<Task>, cur: int, k: int, slot: int)
    requires Moving(ts, cur, k, slot) && Grouped(ts, cur)
    ensures ts[slot + 1].slotOwner == ts[slot + 1].id
  {
    assert !InFirstRun(ts, cur, slot + 1) by {
      assert ts[cur].pid == ts[slot + 1].pid && ts[slot].pid != ts[slot + 1].pid;
    }
  }

  lemma RotateSharesOwner(ts: seq<Task>, cur: int, k: int, slot: int)
    requires Moving(ts, cur, k, slot) && Grouped(ts, cur)
    ensures RunsShareOwner(Rotate(ts, cur, k, slot), cur)
  {
    var r := Rotate(ts, cur, k, slot);
    TargetIsAtHome(ts, cur, k, slot);
    forall i | cur <= i < |r| - 1 && Neighbours(r, i)
      ensures r[i].slotOwner == r[i + 1].slotOwner || ClosesPlan(r, i)
    {
      RotateNeighbours(ts, cur, k, slot, i);
    }
  }

  lemma RotateNeighbours(ts: seq<Task>, cur: int, k: int, slot: int, i: int)
    requires Moving(ts, cur, k, slot) && Grouped(ts, cur)
    requires ts[slot + 1].slotOwner == ts[slot + 1].id
    requires cur <= i < |ts| - 1 && Neighbours(Rotate(ts, cur, k, slot), i)
    ensures var r := Rotate(ts, cur, k, slot); r[i].slotOwner == r[i + 1].slotOwner || ClosesPlan(r, i)
  {
    var r := Rotate(ts, cur, k, slot);
    RotateAt(ts, cur, k, slot, i);
    RotateAt(ts, cur, k, slot, i + 1);
    var a := RotateSource(cur, k, slot, i);
    if slot < i {
      assert Neighbours(ts, i);
      if ClosesPlan(ts, i) {
        forall m | i <= m < |r| - 1 ensures r[m].pid == r[i].pid { RotateAt(ts, cur, k, slot, m); }
      }
    } else if i + 1 <= slot - k {
      assert Neighbours(ts, a);
      assert !ClosesPlan(ts, a) by { assert ts[slot + 1].pid != ts[a].pid; }
    }
  }

  lemma RotateGuests(ts: seq<Task>, cur: int, k: int, slot: int)
    requires Moving(ts, cur, k, slot) && Grouped(ts, cur)
    ensures GuestsInFirstRun(Rotate(ts, cur, k, slot), cur)
  {
    var r := Rotate(ts, cur, k, slot);
    TargetIsAtHome(ts, cur, k, slot);
    forall i | cur <= i < |r| - 1 && r[i].Real() && r[i].slotOwner != r[i].id ensures InFirstRun(r, cur, i) {
      forall x, m | cur <= x <= m <= i && r[x].pid == r[i].pid ensures r[m].pid == r[i].pid {
        RotateAt(ts, cur, k, slot, i);
        RotateAt(ts, cur, k, slot, x);
        RotateAt(ts, cur, k, slot, m);
        RotateGuest(ts, cur, k, slot, RotateSource(cur, k, slot, i),
                    RotateSource(cur, k, slot, x), RotateSource(cur, k, slot, m));
      }
    }
  }

  /** `x`, `m` and `i` are places in the old list that end up in this order in the new one. */
  lemma RotateGuest(ts: seq<Task>, cur: int, k: int, slot: int, i: int, x: int, m: int)
    requires Moving(ts, cur, k, slot) && Grouped(ts, cur)
    requires cur <= i < |ts| - 1 && cur <= x < |ts| - 1 && cur <= m < |ts| - 1
    requires Moved(cur, k, slot, x) <= Moved(cur, k, slot, m) <= Moved(cur, k, slot, i)
    requires ts[i].Real() && ts[x].pid == ts[i].pid
    requires cur + k <= i ==> ts[i].slotOwner != ts[i].id
    requires i != slot + 1
    ensures ts[m].pid == ts[i].pid
  {
    if cur + k <= i {
      assert InFirstRun(ts, cur, i);
      if slot + 1 < i {
        assert ts[slot + 1].pid != ts[i].pid by {
          assert ts[cur].pid == ts[slot + 1].pid && ts[slot].pid != ts[slot + 1].pid;
        }
        assert slot + 1 < x;
      }
    }
  }

  /** Where a place of the old list goes. */
  function Moved(cur: int, k: int, slot: int, i: int): int {
    if i < cur || slot < i then i else if i < cur + k then i + (slot + 1 - k) - cur else i - k
  }

  // ----- runs -----

  /** The number of runs of a process in a list that ends in an entry of another process. */
  function RunsOf(ts: seq<Task>, pid: int): (n: int)
    ensures n >= 0
  {
    if |ts| < 2 then 0
    else (if ts[0].pid == pid && ts[1].pid != pid then 1 else 0) + RunsOf(ts[1..], pid)
  }

  lemma {:induction false} RunsConcat(a: seq<Task>, b: seq<Task>, pid: int)
    requires b != []
    ensures RunsOf(a + b, pid) == RunsOf(a + [b[0]], pid) + RunsOf(b, pid)
  {
    if a == [] {
      assert a + b == b;
    } else {
      assert (a + b)[1..] == a[1..] + b && (a + [b[0]])[1..] == a[1..] + [b[0]];
      RunsConcat(a[1..], b, pid);
    }
  }

  lemma {:induction false} RunsOfSamePids(a: seq<Task>, b: seq<Task>, pid: int)
    requires |a| == |b| && forall i :: 0 <= i < |a| ==> a[i].pid == b[i].pid
    ensures RunsOf(a, pid) == RunsOf(b, pid)
  {
    if |a| < 2 {
    } else {
      RunsOfSamePids(a[1..], b[1..], pid);
    }
  }

  lemma {:induction false} OneRun(a: seq<Task>, x: Task, pid: int)
    requires a != [] && forall i :: 0 <= i < |a| ==> a[i].pid == pid
    ensures RunsOf(a + [x], pid) == if x.pid == pid then 0 else 1
  {
    assert (a + [x])[1..] == a[1..] + [x];
    if |a| == 1 {
    } else {
      OneRun(a[1..], x, pid);
    }
  }

  lemma {:induction false} NoRun(a: seq<Task>, x: Task, pid: int)
    requires forall i :: 0 <= i < |a| ==> a[i].pid != pid
    ensures RunsOf(a + [x], pid) == 0
  {
    if a == [] {
    } else {
      assert (a + [x])[1..] == a[1..] + [x];
      NoRun(a[1..], x, pid);
    }
  }

  lemma RunsConcatThree(a: seq<Task>, b: seq<Task>, c: seq<Task>, pid: int)
    requires b != [] && c != []
    ensures RunsOf(a + (b + c), pid) == RunsOf(a + [b[0]], pid) + RunsOf(b + [c[0]], pid) + RunsOf(c, pid)
  {
    var bc := b + c;
    assert bc[0] == b[0];
    RunsConcat(a, bc, pid);
    RunsConcat(b, c, pid);
  }

  lemma RunsUpTo(mid: seq<Task>, x: Task, y: Task, pid: int)
    requires x.pid == y.pid
    ensures RunsOf(mid + [x], pid) == RunsOf(mid + [y], pid)
  {
    RunsOfSamePids(mid + [x], mid + [y], pid);
  }

  /** A preemption makes one run of the preempted process out of two and leaves all other runs alone. */
  lemma RotateMergesRuns(ts: seq<Task>, cur: int, k: int, slot: int, pid: int)
    requires Moving(ts, cur, k, slot)
    ensures RunsOf(Rotate(ts, cur, k, slot)[cur..], pid) ==
            RunsOf(ts[cur..], pid) - if pid == ts[slot + 1].pid then 1 else 0
  {
    var stack, mid, rest := ts[cur..cur + k], ts[cur + k..slot + 1], ts[slot + 1..];
    var moved := GiveTo(ts[slot + 1].id, stack);
    assert ts[cur..] == stack + (mid + rest);
    assert Rotate(ts, cur, k, slot)[cur..] == mid + (moved + rest);
    RunsConcatThree(stack, mid, rest, pid);
    RunsConcatThree(mid, moved, rest, pid);
    RunsUpTo(mid, rest[0], moved[0], pid);
    if pid == ts[slot + 1].pid {
      OneRun(stack, mid[0], pid);
      OneRun(moved, rest[0], pid);
    } else {
      NoRun(stack, mid[0], pid);
      NoRun(moved, rest[0], pid);
    }
  }

  lemma TwoRunsToMerge(ts: seq<Task>, cur: int, k: int, slot: int)
    requires Moving(ts, cur, k, slot)
    requires ts[|ts| - 1].pid != ts[slot + 1].pid
    ensures RunsOf(ts[cur..], ts[slot + 1].pid) >= 2
  {
    var pid := ts[slot + 1].pid;
    var stack, mid, rest := ts[cur..cur + k], ts[cur + k..slot + 1], ts[slot + 1..];
    assert ts[cur..] == stack + (mid + rest);
    RunsConcat(stack, mid + rest, pid);
    RunsConcat(mid, rest, pid);
    assert (mid + rest)[0] == mid[0];
    OneRun(stack, mid[0], pid);
    HasRun(rest, pid);
  }

  lemma {:induction false} HasRun(ts: seq<Task>, pid: int)
    requires ts != [] && ts[0].pid == pid && ts[|ts| - 1].pid != pid
    ensures RunsOf(ts, pid) >= 1
  {
    if |ts| == 1 || ts[1].pid != pid {
    } else {
      HasRun(ts[1..], pid);
    }
  }

  lemma {:induction false} RunsShrink(ts: seq<Task>, cur: int, later: int, pid: int)
    requires 0 <= cur <= later <= |ts|
    ensures RunsOf(ts[later..], pid) <= RunsOf(ts[cur..], pid)
    decreases later - cur
  {
    if cur == later {
    } else {
      RunsShrink(ts, cur + 1, later, pid);
      assert ts[cur..][1..] == ts[cur + 1..];
    }
  }

  /** A process has no more runs than tasks. */
  lemma {:induction false} RunsAreMadeOfTasks(ts: seq<Task>, pid: int)
    requires forall i :: 0 <= i < |ts| && ts[i].pid == pid ==> ts[i].Real()
    ensures RunsOf(ts, pid) <= |TasksOf(ts, pid)|
  {
    if ts == [] {
    } else {
      RunsAreMadeOfTasks(ts[1..], pid);
    }
  }

  // ----- the order of a process's tasks -----

  /** The ids of a process's tasks, in list order. */
  function TasksOf(ts: seq<Task>, pid: int): seq<int> {
    if ts == [] then []
    else (if ts[0].Real() && ts[0].pid == pid then [ts[0].id] else []) + TasksOf(ts[1..], pid)
  }

  lemma {:induction false} TasksOfConcat(a: seq<Task>, b: seq<Task>, pid: int)
    ensures TasksOf(a + b, pid) == TasksOf(a, pid) + TasksOf(b, pid)
  {
    if a == [] {
      assert a + b == b;
    } else {
      assert (a + b)[1..] == a[1..] + b;
      TasksOfConcat(a[1..], b, pid);
    }
  }

  lemma {:induction false} TasksOfSame(a: seq<Task>, b: seq<Task>, pid: int)
    requires |a| == |b| && forall i :: 0 <= i < |a| ==> a[i].id == b[i].id && a[i].pid == b[i].pid
    ensures TasksOf(a, pid) == TasksOf(b, pid)
  {
    if a == [] {
    } else {
      TasksOfSame(a[1..], b[1..], pid);
    }
  }

  lemma {:induction false} NoTasksOf(ts: seq<Task>, pid: int)
    requires forall i :: 0 <= i < |ts| ==> ts[i].pid != pid
    ensures TasksOf(ts, pid) == []
  {
    if ts == [] {
    } else {
      NoTasksOf(ts[1..], pid);
    }
  }

  lemma RotateTasksOf(ts: seq<Task>, cur: int, k: int, slot: int, pid: int)
    requires 0 <= cur && 0 <= k && cur + k <= slot + 1 < |ts|
    ensures TasksOf(ts, pid) ==
            TasksOf(ts[..cur], pid) + TasksOf(ts[cur..cur + k], pid) +
            TasksOf(ts[cur + k..slot + 1], pid) + TasksOf(ts[slot + 1..], pid)
    ensures TasksOf(Rotate(ts, cur, k, slot), pid) ==
            TasksOf(ts[..cur], pid) + TasksOf(ts[cur + k..slot + 1], pid) +
            TasksOf(ts[cur..cur + k], pid) + TasksOf(ts[slot + 1..], pid)
  {
    var front, stack, mid, rest := ts[..cur], ts[cur..cur + k], ts[cur + k..slot + 1], ts[slot + 1..];
    var moved := GiveTo(ts[slot + 1].id, stack);
    assert ts == front + stack + mid + rest;
    TasksOfConcat(front + stack + mid, rest, pid);
    TasksOfConcat(front + stack, mid, pid);
    TasksOfConcat(front, stack, pid);
    TasksOfConcat(front + mid + moved, rest, pid);
    TasksOfConcat(front + mid, moved, pid);
    TasksOfConcat(front, mid, pid);
    TasksOfSame(moved, stack, pid);
  }

  /** Moving a whole run past other processes' entries reorders no process. */
  lemma RotateKeepsOrder(ts: seq<Task>, cur: int, k: int, slot: int, pid: int)
    requires Moving(ts, cur, k, slot)
    ensures TasksOf(Rotate(ts, cur, k, slot), pid) == TasksOf(ts, pid)
  {
    RotateTasksOf(ts, cur, k, slot, pid);
    if pid == ts[slot + 1].pid {
      NoTasksOf(ts[cur + k..slot + 1], pid);
    } else {
      NoTasksOf(ts[cur..cur + k], pid);
    }
  }

  // ----- ticks and runs -----

  lemma PreemptionMoves(s: State)
    requires LaidOut(s) && Active(s) && RunsShareOwner(s.tasks, s.cur)
    requires InsertionSlot(s.tasks, s.cur, s.Current().pid) != -2
    ensures var k, slot := StackSize(s.tasks, s.cur), InsertionSlot(s.tasks, s.cur, s.Current().pid);
            && Moving(s.tasks, s.cur, k, slot)
            && s.tasks[slot + 1].pid == s.Current().pid
            && StackMoved(s.tasks, s.cur) == Rotate(s.tasks, s.cur, k, slot)
  {
    ActiveIsBeforeTheEnd(s);
    StackFitsSlot(s.tasks, s.cur);
    var slot := InsertionSlot(s.tasks, s.cur, s.Current().pid);
    forall i | 0 <= i < |s.tasks| && s.tasks[i].pid == s.Current().pid ensures s.tasks[i].Real() {
      if i < |s.tasks| - 1 { assert GoodEntry(s.tasks[i], s.processes, s.numProcesses); }
    }
    assert slot + 1 != |s.tasks| - 1;
    StackIsWholeRun(s.tasks, s.cur);
  }

  /** The unfinished runs of a process. */
  function RunsLeft(s: State, pid: int): int
    requires 0 <= s.cur <= |s.tasks|
  {
    RunsOf(s.tasks[s.cur..], pid)
  }

  /** `t` is what a preempting tick makes of `s`. */
  lemma MovedStackKeepsGroups(s: State, t: State, pid: int)
    requires LaidOut(s) && Active(s) && Grouped(s.tasks, s.cur)
    requires InsertionSlot(s.tasks, s.cur, s.Current().pid) != -2
    requires SameLayout(StackMoved(s.tasks, s.cur), t.tasks) && s.cur <= t.cur <= |t.tasks|
    ensures Grouped(t.tasks, t.cur)
    ensures TasksOf(t.tasks, pid) == TasksOf(s.tasks, pid)
    ensures RunsLeft(t, pid) <= RunsLeft(s, pid) - if pid == s.Current().pid then 1 else 0
    ensures RunsLeft(s, s.Current().pid) >= 2
  {
    PreemptionMoves(s);
    var k, slot := StackSize(s.tasks, s.cur), InsertionSlot(s.tasks, s.cur, s.Current().pid);
    TwoRunsToMerge(s.tasks, s.cur, k, slot);
    RotatedListKeepsGroups(s.tasks, s.cur, k, slot, t.tasks, t.cur, pid);
  }

  lemma RotatedListKeepsGroups(ts: seq<Task>, cur: int, k: int, slot: int, later: seq<Task>, next: int, pid: int)
    requires Moving(ts, cur, k, slot) && Grouped(ts, cur)
    requires SameLayout(Rotate(ts, cur, k, slot), later) && cur <= next <= |ts|
    ensures Grouped(later, next)
    ensures TasksOf(later, pid) == TasksOf(ts, pid)
    ensures RunsOf(later[next..], pid) <= RunsOf(ts[cur..], pid) - if pid == ts[slot + 1].pid then 1 else 0
  {
    var r := Rotate(ts, cur, k, slot);
    RotateSharesOwner(ts, cur, k, slot);
    RotateGuests(ts, cur, k, slot);
    SameLayoutGrouped(r, later, cur, next);
    RotateKeepsOrder(ts, cur, k, slot, pid);
    TasksOfSame(r, later, pid);
    RotateMergesRuns(ts, cur, k, slot, pid);
    RunsOfSamePids(r[next..], later[next..], pid);
    RunsShrink(r, cur, next, pid);
  }

  /** `t` is what a tick makes of `s` that moves no task. */
  lemma SameListKeepsGroups(s: State, t: State, pid: int)
    requires 0 <= s.cur <= |s.tasks| && Grouped(s.tasks, s.cur)
    requires SameLayout(s.tasks, t.tasks) && s.cur <= t.cur <= |t.tasks|
    ensures Grouped(t.tasks, t.cur)
    ensures TasksOf(t.tasks, pid) == TasksOf(s.tasks, pid)
    ensures RunsLeft(t, pid) <= RunsLeft(s, pid)
  {
    SameLayoutGrouped(s.tasks, t.tasks, s.cur, t.cur);
    TasksOfSame(s.tasks, t.tasks, pid);
    RunsOfSamePids(s.tasks[t.cur..], t.tasks[t.cur..], pid);
    RunsShrink(s.tasks, s.cur, t.cur, pid);
  }

  ghost predicate Keeps(x: State, pid: int, order: seq<int>) {
    Inv(x) && Grouped(x.tasks, x.cur) && TasksOf(x.tasks, pid) == order
  }

  /** One more than the preemptions that the runs of a process still allow. */
  ghost function Credit(x: State, pid: int): int {
    if Inv(x) then Max(1, RunsLeft(x, pid)) else 0
  }

  ghost predicate Preempts(x: State, pid: int) {
    Inv(x) && (TickKeeps(x); EventOf(x) == Preempted(pid))
  }

  /** The cases of a tick, as far as the order of the list is concerned. */
  lemma NextIsAMoveOrNot(x: State)
    requires Inv(x)
    ensures var y := Next(x);
            && Inv(y) && x.cur <= y.cur
            && (if exists pid :: Preempts(x, pid)
                then Active(x) && Preempts(x, x.Current().pid)
                     && InsertionSlot(x.tasks, x.cur, x.Current().pid) != -2
                     && SameLayout(StackMoved(x.tasks, x.cur), y.tasks)
                else SameLayout(x.tasks, y.tasks))
  {
    TickKeeps(x);
    if !x.Current().End() {
      if EventOf(x).Preempted? {
        PreemptedStep(x);
        assert Preempts(x, EventOf(x).pid);
      } else if EventOf(x) == Completed {
        CompletedStep(x);
      } else {
        StayingStep(x);
      }
    }
  }

  lemma OnePreemptedProcess(x: State, pid: int)
    requires Preempts(x, pid)
    ensures Active(x) && pid == x.Current().pid
  {
    TickKeeps(x);
    PreemptedStep(x);
  }

  /** From `x` to `y` the groups and the order are kept, and a `hit` uses up one unit of credit. */
  ghost predicate StepKeeps(x: State, y: State, pid: int, order: seq<int>, hit: bool) {
    Keeps(y, pid, order) && Credit(y, pid) + (if hit then 1 else 0) <= Credit(x, pid)
  }

  lemma MoveKeepsGroups(x: State, y: State, pid: int, order: seq<int>)
    requires Keeps(x, pid, order) && Inv(y) && Active(x) && x.cur <= y.cur
    requires InsertionSlot(x.tasks, x.cur, x.Current().pid) != -2
    requires SameLayout(StackMoved(x.tasks, x.cur), y.tasks)
    ensures StepKeeps(x, y, pid, order, pid == x.Current().pid)
  {
    MovedStackKeepsGroups(x, y, pid);
  }

  lemma StayKeepsGroups(x: State, y: State, pid: int, order: seq<int>)
    requires Keeps(x, pid, order) && Inv(y) && x.cur <= y.cur && SameLayout(x.tasks, y.tasks)
    ensures StepKeeps(x, y, pid, order, false)
  {
    SameListKeepsGroups(x, y, pid);
  }

  lemma NextKeepsGroups(x: State, pid: int, order: seq<int>)
    requires Keeps(x, pid, order)
    ensures StepKeeps(x, Next(x), pid, order, Preempts(x, pid))
  {
    NextIsAMoveOrNot(x);
    if q :| Preempts(x, q) {
      MoveKeepsGroups(x, Next(x), pid, order);
      if Preempts(x, pid) { OnePreemptedProcess(x, pid); }
    } else {
      StayKeepsGroups(x, Next(x), pid, order);
    }
  }

  /** How often tasks of a process were preempted into another slot during the first `n` ticks. */
  ghost function Preemptions(s: State, pid: int, n: nat): nat {
    Tally(Next, x => Preempts(x, pid), s, n)
  }

  lemma FreshIsGrouped(s: State)
    requires Fresh(s) && Separated(s.tasks)
    ensures Inv(s) && Grouped(s.tasks, s.cur)
  {
    FreshInv(s);
  }

  /** The induction over a run that all three results below read off. */
  lemma RunKeepsGroups(s: State, n: nat, pid: int)
    requires Inv(s) && Grouped(s.tasks, s.cur)
    ensures Keeps(Run(s, n), pid, TasksOf(s.tasks, pid))
    ensures Preemptions(s, pid, n) + Credit(Run(s, n), pid) <= Credit(s, pid)
  {
    var order := TasksOf(s.tasks, pid);
    var hit, inv, credit := x => Preempts(x, pid), x => Keeps(x, pid, order), x => Credit(x, pid);
    forall x {:trigger Next(x)} | inv(x)
      ensures inv(Next(x)) && credit(Next(x)) + (if hit(x) then 1 else 0) <= credit(x)
    {
      NextKeepsGroups(x, pid, order);
    }
    CreditBoundsTally(Next, hit, inv, credit, s, n);
    assert Preemptions(s, pid, n) == Tally(Next, hit, s, n);
  }

  /**
   * The number of preemptions of a process is at most one less than the number of its tasks, over
   * runs of any length (prediction_failure_handling.c:30-52).
   */
  lemma PreemptionsAreBounded(s: State, pid: int, n: nat)
    requires Fresh(s) && Separated(s.tasks) && 0 <= pid
    ensures Preemptions(s, pid, n) <= Max(0, |TasksOf(s.tasks, pid)| - 1)
  {
    FreshIsGrouped(s);
    RunKeepsGroups(s, n, pid);
    FreshCredit(s, pid);
  }

  lemma FreshCredit(s: State, pid: int)
    requires Inv(s) && s.cur == 0 && 0 <= pid
    ensures Credit(s, pid) <= Max(1, |TasksOf(s.tasks, pid)|)
    ensures forall x :: Inv(x) ==> Credit(x, pid) >= 1
  {
    forall i | 0 <= i < |s.tasks| && s.tasks[i].pid == pid ensures s.tasks[i].Real() {
      if i < |s.tasks| - 1 { assert GoodEntry(s.tasks[i], s.processes, s.numProcesses); }
    }
    RunsAreMadeOfTasks(s.tasks, pid);
    assert s.tasks[0..] == s.tasks;
  }

  /** In every reachable state, runs share an owner and guests are in the first run of their process. */
  lemma GroupsAreKept(s: State, n: nat)
    requires Fresh(s) && Separated(s.tasks)
    ensures Inv(s)
    ensures RunsShareOwner(Run(s, n).tasks, Run(s, n).cur)
    ensures GuestsInFirstRun(Run(s, n).tasks, Run(s, n).cur)
  {
    FreshIsGrouped(s);
    RunKeepsGroups(s, n, 0);
  }

  /** No process ever sees its tasks in another order than that of the plan. */
  lemma OrderIsKept(s: State, n: nat, pid: int)
    requires Fresh(s) && Separated(s.tasks)
    ensures Inv(s)
    ensures TasksOf(Run(s, n).tasks, pid) == TasksOf(s.tasks, pid)
  {
    FreshIsGrouped(s);
    RunKeepsGroups(s, n, pid);
  }

  // ----- the program's own order check -----

  /** What order_is_kept decides (prediction_failure_handling.c:205-220): see Checkers.dfy. */
  predicate Ascends(ts: seq<Task>) {
    && (forall i :: 0 <= i < |ts| && ts[i].Real() ==> ts[i].id >= 0)
    && forall i, j :: 0 <= i < j < |ts| && ts[i].Real() && ts[j].Real() && ts[i].pid == ts[j].pid ==>
         ts[i].id <= ts[j].id
  }

  predicate Sorted(ids: seq<int>) {
    && (forall a :: 0 <= a < |ids| ==> ids[a] >= 0)
    && forall a, b :: 0 <= a < b < |ids| ==> ids[a] <= ids[b]
  }

  lemma {:induction false} TasksOfMembers(ts: seq<Task>, pid: int)
    ensures forall v :: v in TasksOf(ts, pid) ==>
              exists i :: 0 <= i < |ts| && ts[i].Real() && ts[i].pid == pid && ts[i].id == v
    ensures forall i :: 0 <= i < |ts| && ts[i].Real() && ts[i].pid == pid ==> ts[i].id in TasksOf(ts, pid)
  {
    if ts == [] {
    } else {
      TasksOfMembers(ts[1..], pid);
      forall v | v in TasksOf(ts, pid)
        ensures exists i :: 0 <= i < |ts| && ts[i].Real() && ts[i].pid == pid && ts[i].id == v
      {
        if v in TasksOf(ts[1..], pid) {
          var i :| 0 <= i < |ts[1..]| && ts[1..][i].Real() && ts[1..][i].pid == pid && ts[1..][i].id == v;
          assert ts[i + 1].Real() && ts[i + 1].pid == pid && ts[i + 1].id == v;
        } else {
          assert ts[0].Real() && ts[0].pid == pid && ts[0].id == v;
        }
      }
      forall i | 0 <= i < |ts| && ts[i].Real() && ts[i].pid == pid ensures ts[i].id in TasksOf(ts, pid) {
        if i > 0 { assert ts[1..][i - 1] == ts[i]; }
      }
    }
  }

  lemma {:induction false} AscendingIsSorted(ts: seq<Task>, pid: int)
    requires Ascends(ts)
    ensures Sorted(TasksOf(ts, pid))
  {
    if ts == [] {
    } else {
      AscendingIsSorted(ts[1..], pid);
      TasksOfMembers(ts[1..], pid);
      var rest := TasksOf(ts[1..], pid);
      if ts[0].Real() && ts[0].pid == pid {
        forall a | 0 <= a < |rest| ensures ts[0].id <= rest[a] {
          assert rest[a] in rest;
        }
      }
    }
  }

  lemma HeadComesFirst(ts: seq<Task>)
    requires ts != [] && ts[0].Real() && Sorted(TasksOf(ts, ts[0].pid))
    ensures ts[0].id >= 0
    ensures forall j :: 0 < j < |ts| && ts[j].Real() && ts[j].pid == ts[0].pid ==> ts[0].id <= ts[j].id
  {
    var pid := ts[0].pid;
    TasksOfMembers(ts[1..], pid);
    assert TasksOf(ts, pid)[0] == ts[0].id;
    forall j | 0 < j < |ts| && ts[j].Real() && ts[j].pid == pid ensures ts[0].id <= ts[j].id {
      var rest := TasksOf(ts[1..], pid);
      assert ts[1..][j - 1] == ts[j];
      var a :| 0 <= a < |rest| && rest[a] == ts[j].id;
      assert TasksOf(ts, pid)[a + 1] == rest[a];
    }
  }

  lemma {:induction false} SortedIsAscending(ts: seq<Task>)
    requires forall pid :: Sorted(TasksOf(ts, pid))
    ensures Ascends(ts)
  {
    if ts == [] {
    } else {
      forall pid ensures Sorted(TasksOf(ts[1..], pid)) {
        var all, rest := TasksOf(ts, pid), TasksOf(ts[1..], pid);
        assert Sorted(all);
        assert forall a :: 0 <= a < |rest| ==> rest[a] == all[a + |all| - |rest|];
      }
      SortedIsAscending(ts[1..]);
      if ts[0].Real() {
        HeadComesFirst(ts);
      }
      forall i, j | 0 <= i < j < |ts| && ts[i].Real() && ts[j].Real() && ts[i].pid == ts[j].pid
        ensures ts[i].id <= ts[j].id
      {
        if i > 0 { assert ts[1..][i - 1] == ts[i] && ts[1..][j - 1] == ts[j]; }
      }
      forall i | 0 <= i < |ts| && ts[i].Real() ensures ts[i].id >= 0 {
        if i > 0 { assert ts[1..][i - 1] == ts[i]; }
      }
    }
  }

  /** order_is_kept returns after any number of ticks what it returned for the fresh plan. */
  lemma OrderCheckIsStable(s: State, n: nat)
    requires Fresh(s) && Separated(s.tasks)
    ensures Inv(s)
    ensures Ascends(Run(s, n).tasks) <==> Ascends(s.tasks)
  {
    FreshInv(s);
    var r := Run(s, n).tasks;
    if Ascends(s.tasks) {
      forall pid ensures Sorted(TasksOf(r, pid)) {
        OrderIsKept(s, n, pid);
        AscendingIsSorted(s.tasks, pid);
      }
      SortedIsAscending(r);
    }
    if Ascends(r) {
      forall pid ensures Sorted(TasksOf(s.tasks, pid)) {
        OrderIsKept(s, n, pid);
        AscendingIsSorted(r, pid);
      }
      SortedIsAscending(s.tasks);
    }
  }
}
