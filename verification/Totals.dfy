/** Sums over the task list, and how they react to the ways in which the scheduler changes it. */
module Totals {
  import opened Config
  import opened Entities

  /** Whose tasks are summed: those of the whole plan, or those of one process. */
  datatype Scope = WholePlan | OfProcess(pid: int)

  predicate InScope(scope: Scope, t: Task) {
    t.Real() && (scope.OfProcess? ==> t.pid == scope.pid)
  }

  /** What is summed. */
  datatype Gauge =
    | Actual(scope: Scope)   // instructions the tasks really take
    | OnSlot(scope: Scope)   // instructions booked on the tasks' slots
    | OnTask(scope: Scope)   // instructions run by the tasks
    | Overrun(scope: Scope)  // instructions the tasks really take beyond their plans
    | Planned                // lengths of all entries, free slots included
    | TicksLeft              // timer ticks the tasks still need
    | TaskCount
    | FreeCount

  function Max(a: int, b: int): int {
    if a > b then a else b
  }

  /** Ticks that a task needs for `missing` more instructions; it always gets at least one. */
  function TicksFor(missing: int): int {
    Max(1, (missing + INS_PER_TICK - 1) / INS_PER_TICK)
  }

  function Weight(g: Gauge, t: Task): int {
    match g
    case Actual(scope) => if InScope(scope, t) then t.actual else 0
    case OnSlot(scope) => if InScope(scope, t) then t.retiredSlot else 0
    case OnTask(scope) => if InScope(scope, t) then t.retiredTask else 0
    case Overrun(scope) => if InScope(scope, t) then t.actual - t.planned else 0
    case Planned => if t.End() then 0 else t.planned
    case TicksLeft => if t.Real() then TicksFor(t.actual - t.retiredTask) else 0
    case TaskCount => if t.Real() then 1 else 0
    case FreeCount => if t.Free() then 1 else 0
  }

  function Total(g: Gauge, ts: seq<Task>): int {
    if ts == [] then 0 else Weight(g, ts[0]) + Total(g, ts[1..])
  }

  lemma TotalOne(g: Gauge, t: Task)
    ensures Total(g, [t]) == Weight(g, t)
  {
    assert [t][1..] == [];
  }

  lemma {:induction false} TotalConcat(g: Gauge, a: seq<Task>, b: seq<Task>)
    ensures Total(g, a + b) == Total(g, a) + Total(g, b)
  {
    if a == [] {
      assert a + b == b;
    } else {
      assert (a + b)[1..] == a[1..] + b;
      TotalConcat(g, a[1..], b);
    }
  }

  lemma {:induction false} TotalUpdate(g: Gauge, ts: seq<Task>, i: int, t: Task)
    requires 0 <= i < |ts|
    ensures Total(g, ts[i := t]) == Total(g, ts) - Weight(g, ts[i]) + Weight(g, t)
  {
    if i == 0 {
      assert ts[i := t][1..] == ts[1..];
    } else {
      assert ts[i := t][1..] == ts[1..][i - 1 := t];
      TotalUpdate(g, ts[1..], i - 1, t);
    }
  }

  /** Entry by entry equal weights give equal totals. */
  lemma {:induction false} TotalSame(g: Gauge, a: seq<Task>, b: seq<Task>)
    requires |a| == |b|
    requires forall i :: 0 <= i < |a| ==> Weight(g, a[i]) == Weight(g, b[i])
    ensures Total(g, a) == Total(g, b)
  {
    if a == [] {
    } else {
      TotalSame(g, a[1..], b[1..]);
    }
  }

  lemma {:induction false} TotalNonNegative(g: Gauge, ts: seq<Task>)
    requires forall i :: 0 <= i < |ts| ==> Weight(g, ts[i]) >= 0
    ensures Total(g, ts) >= 0
    ensures forall i :: 0 <= i < |ts| ==> Weight(g, ts[i]) <= Total(g, ts)
  {
    if ts == [] {
    } else {
      TotalNonNegative(g, ts[1..]);
    }
  }

  /** Splitting off the entry at the cursor, which is what moving the cursor does to both parts. */
  lemma TotalStep(g: Gauge, ts: seq<Task>, cur: int)
    requires 0 <= cur < |ts|
    ensures Total(g, ts[..cur + 1]) == Total(g, ts[..cur]) + Weight(g, ts[cur])
    ensures Total(g, ts[cur..]) == Weight(g, ts[cur]) + Total(g, ts[cur + 1..])
  {
    assert ts[..cur + 1] == ts[..cur] + [ts[cur]];
    TotalConcat(g, ts[..cur], [ts[cur]]);
    assert ts[cur..][1..] == ts[cur + 1..];
  }

  /** Updating an entry at or behind the cursor. */
  lemma TotalUpdateBehind(g: Gauge, ts: seq<Task>, cur: int, i: int, t: Task)
    requires 0 <= cur <= i < |ts|
    ensures ts[i := t][..cur] == ts[..cur]
    ensures Total(g, ts[i := t][cur..]) == Total(g, ts[cur..]) - Weight(g, ts[i]) + Weight(g, t)
  {
    assert ts[i := t][cur..] == ts[cur..][i - cur := t];
    TotalUpdate(g, ts[cur..], i - cur, t);
  }

  /** Every task and every free slot is counted once. */
  lemma {:induction false} CountsAddUp(ts: seq<Task>)
    requires forall i :: 0 <= i < |ts| ==> !ts[i].End()
    ensures Total(TaskCount, ts) + Total(FreeCount, ts) == |ts|
  {
    if ts == [] {
    } else {
      CountsAddUp(ts[1..]);
    }
  }
}
