/** A bound on the preemptions of a process that needs no hypothesis on the plan. */
module PreemptionBound {
  import opened Entities
  import opened Totals
  import opened Model
  import opened Layout
  import opened Iteration
  import opened Invariant
  import opened Steps
  import opened ProcessOrder

  /** How many later runs of their process the tasks of `a` have in front of them, if `b` follows. */
  function HopsInto(a: seq<Task>, b: seq<Task>, pid: int): int {
    if a == [] then 0
    else (if a[0].pid == pid then RunsOf(a + b, pid) - 1 else 0) + HopsInto(a[1..], b, pid)
  }

  /** The sum over the tasks of a process of the runs of the process behind the task's own. */
  function Hops(ts: seq<Task>, pid: int): int {
    HopsInto(ts, [], pid)
  }

  lemma {:induction false} HopsConcat(a: seq<Task>, b: seq<Task>, c: seq<Task>, pid: int)
    ensures HopsInto(a + b, c, pid) == HopsInto(a, b + c, pid) + HopsInto(b, c, pid)
    decreases |a|
  {
    if a == [] {
      assert a + b == b;
    } else {
      assert (a + b)[1..] == a[1..] + b;
      assert (a + b) + c == a + (b + c);
      HopsConcat(a[1..], b, c, pid);
    }
  }

  lemma {:induction false} HopsSameBehind(a: seq<Task>, x: seq<Task>, y: seq<Task>, pid: int)
    requires x != [] && y != [] && x[0].pid == y[0].pid && RunsOf(x, pid) == RunsOf(y, pid)
    ensures HopsInto(a, x, pid) == HopsInto(a, y, pid)
    decreases |a|
  {
    if a == [] {
    } else {
      RunsConcat(a, x, pid);
      RunsConcat(a, y, pid);
      RunsUpTo(a, x[0], y[0], pid);
      HopsSameBehind(a[1..], x, y, pid);
    }
  }

  lemma {:induction false} HopsOfSamePids(a: seq<Task>, b: seq<Task>, pid: int)
    requires |a| == |b| && forall i :: 0 <= i < |a| ==> a[i].pid == b[i].pid
    ensures Hops(a, pid) == Hops(b, pid)
    decreases |a|
  {
    if a == [] {
    } else {
      assert a + [] == a && b + [] == b;
      RunsOfSamePids(a, b, pid);
      HopsOfSamePids(a[1..], b[1..], pid);
    }
  }

  lemma {:induction false} NoHops(a: seq<Task>, b: seq<Task>, pid: int)
    requires forall i :: 0 <= i < |a| ==> a[i].pid != pid
    ensures HopsInto(a, b, pid) == 0
    decreases |a|
  {
    if a == [] {
    } else {
      NoHops(a[1..], b, pid);
    }
  }

  lemma {:induction false} RunsGrow(w: seq<Task>, x: Task, pid: int)
    ensures RunsOf(w + [x], pid) >= RunsOf(w, pid)
    decreases |w|
  {
    if |w| < 2 {
    } else {
      assert (w + [x])[1..] == w[1..] + [x];
      RunsGrow(w[1..], x, pid);
    }
  }

  /** In front of `mid` a task of the process has one run more before it than in front of `rest`. */
  lemma OneRunLess(stack: seq<Task>, mid: seq<Task>, moved: seq<Task>, rest: seq<Task>, pid: int)
    requires stack != [] && moved != [] && mid != [] && rest != []
    requires forall i :: 0 <= i < |stack| ==> stack[i].pid == pid
    requires forall i :: 0 <= i < |moved| ==> moved[i].pid == pid
    requires mid[|mid| - 1].pid != pid && rest[0].pid == pid
    ensures RunsOf(moved + rest, pid) == RunsOf(rest, pid)
    ensures RunsOf(stack + (mid + rest), pid) >= RunsOf(rest, pid) + 1
  {
    RunsConcat(moved, rest, pid);
    OneRun(moved, rest[0], pid);
    var w := stack + mid;
    assert w + rest == stack + (mid + rest);
    HasRun(w, pid);
    RunsGrow(w, rest[0], pid);
    RunsConcat(w, rest, pid);
  }

  lemma {:induction false} StackHops(stack: seq<Task>, mid: seq<Task>, moved: seq<Task>, rest: seq<Task>, pid: int)
    requires |stack| == |moved| && mid != [] && rest != []
    requires forall i :: 0 <= i < |stack| ==> stack[i].pid == pid
    requires forall i :: 0 <= i < |moved| ==> moved[i].pid == pid
    requires mid[|mid| - 1].pid != pid && rest[0].pid == pid
    ensures HopsInto(stack, mid + rest, pid) >= HopsInto(moved, rest, pid) + |stack|
    decreases |stack|
  {
    if stack == [] {
    } else {
      OneRunLess(stack, mid, moved, rest, pid);
      StackHops(stack[1..], mid, moved[1..], rest, pid);
    }
  }

  /** The stack of process `p` goes from the front to behind `mid`. */
  lemma MovedHops(stack: seq<Task>, mid: seq<Task>, moved: seq<Task>, rest: seq<Task>, p: int, pid: int)
    requires |stack| == |moved| > 0 && mid != [] && rest != []
    requires forall i :: 0 <= i < |stack| ==> stack[i].pid == p
    requires forall i :: 0 <= i < |moved| ==> moved[i].pid == p
    requires mid[|mid| - 1].pid != p && rest[0].pid == p
    ensures Hops(mid + (moved + rest), pid) <= Hops(stack + (mid + rest), pid) - if pid == p then |stack| else 0
  {
    HopsInParts(stack, mid, rest, pid);
    HopsInParts(mid, moved, rest, pid);
    RunsConcat(moved, rest, pid);
    assert (moved + rest)[0] == moved[0];
    if pid == p {
      OneRun(moved, rest[0], pid);
      StackHops(stack, mid, moved, rest, pid);
    } else {
      NoRun(moved, rest[0], pid);
      NoHops(stack, mid + rest, pid);
      NoHops(moved, rest, pid);
    }
    HopsSameBehind(mid, moved + rest, rest, pid);
  }

  lemma HopsInParts(a: seq<Task>, b: seq<Task>, c: seq<Task>, pid: int)
    ensures Hops(a + (b + c), pid) == HopsInto(a, b + c, pid) + HopsInto(b, c, pid) + Hops(c, pid)
  {
    HopsConcat(a, b + c, [], pid);
    HopsConcat(b, c, [], pid);
    assert (b + c) + [] == b + c && c + [] == c;
  }

  lemma RotateHops(ts: seq<Task>, cur: int, k: int, slot: int, pid: int)
    requires 0 <= cur && 1 <= k && cur + k <= slot < slot + 1 < |ts|
    requires forall m :: cur <= m < cur + k ==> ts[m].pid == ts[slot + 1].pid
    requires ts[slot].pid != ts[slot + 1].pid
    ensures Hops(Rotate(ts, cur, k, slot)[cur..], pid) <=
            Hops(ts[cur..], pid) - if pid == ts[slot + 1].pid then 1 else 0
  {
    var stack, mid, rest := ts[cur..cur + k], ts[cur + k..slot + 1], ts[slot + 1..];
    var moved := GiveTo(ts[slot + 1].id, stack);
    assert ts[cur..] == stack + (mid + rest);
    assert Rotate(ts, cur, k, slot)[cur..] == mid + (moved + rest);
    MovedHops(stack, mid, moved, rest, ts[slot + 1].pid, pid);
  }

  /** Tasks that are left behind take their hops with them. */
  lemma {:induction false} HopsShrink(ts: seq<Task>, cur: int, later: int, pid: int)
    requires 0 <= cur <= later <= |ts| && (ts != [] ==> ts[|ts| - 1].pid != pid)
    ensures Hops(ts[later..], pid) <= Hops(ts[cur..], pid)
    decreases later - cur
  {
    if cur == later {
    } else {
      HopsShrink(ts, cur + 1, later, pid);
      var here := ts[cur..];
      assert here[1..] == ts[cur + 1..] && here + [] == here;
      if here[0].pid == pid { HasRun(here, pid); }
    }
  }

  lemma HopsAreNatural(ts: seq<Task>, pid: int)
    requires ts != [] ==> ts[|ts| - 1].pid != pid
    ensures Hops(ts, pid) >= 0
  {
    HopsShrink(ts, 0, |ts|, pid);
    assert ts[0..] == ts && ts[|ts|..] == [];
  }

  // ----- runs -----

  ghost function HopsLeft(x: State, pid: int): int {
    if Inv(x) then Hops(x.tasks[x.cur..], pid) else 0
  }

  lemma RotatedListUsesHop(ts: seq<Task>, cur: int, k: int, slot: int, later: seq<Task>, next: int, pid: int)
    requires 0 <= cur && 1 <= k && cur + k <= slot < slot + 1 < |ts|
    requires forall m :: cur <= m < cur + k ==> ts[m].pid == ts[slot + 1].pid
    requires ts[slot].pid != ts[slot + 1].pid && ts[|ts| - 1].pid != pid
    requires SameLayout(Rotate(ts, cur, k, slot), later) && cur <= next <= |ts|
    ensures Hops(later[next..], pid) <= Hops(ts[cur..], pid) - if pid == ts[slot + 1].pid then 1 else 0
  {
    var r := Rotate(ts, cur, k, slot);
    RotateAt(ts, cur, k, slot, |r| - 1);
    RotateHops(ts, cur, k, slot, pid);
    HopsShrink(r, cur, next, pid);
    HopsOfSamePids(r[next..], later[next..], pid);
  }

  lemma MoveUsesHop(s: State, t: State, pid: int)
    requires Active(s) && 0 <= pid
    requires InsertionSlot(s.tasks, s.cur, s.Current().pid) != -2
    requires SameLayout(StackMoved(s.tasks, s.cur), t.tasks) && s.cur <= t.cur <= |t.tasks|
    ensures Hops(t.tasks[t.cur..], pid) <= Hops(s.tasks[s.cur..], pid) - if pid == s.Current().pid then 1 else 0
  {
    StackFitsSlot(s.tasks, s.cur);
    var k, slot := StackSize(s.tasks, s.cur), InsertionSlot(s.tasks, s.cur, s.Current().pid);
    RotatedListUsesHop(s.tasks, s.cur, k, slot, t.tasks, t.cur, pid);
  }

  lemma StayAddsNoHop(s: State, t: State, pid: int)
    requires Shaped(s) && 0 <= pid && SameLayout(s.tasks, t.tasks) && s.cur <= t.cur <= |t.tasks|
    ensures Hops(t.tasks[t.cur..], pid) <= Hops(s.tasks[s.cur..], pid)
  {
    HopsShrink(s.tasks, s.cur, t.cur, pid);
    HopsOfSamePids(s.tasks[t.cur..], t.tasks[t.cur..], pid);
  }

  lemma NextUsesHops(x: State, pid: int)
    requires Inv(x) && 0 <= pid
    ensures Inv(Next(x)) && HopsLeft(Next(x), pid) + (if Preempts(x, pid) then 1 else 0) <= HopsLeft(x, pid)
  {
    NextIsAMoveOrNot(x);
    if q :| Preempts(x, q) {
      MoveUsesHop(x, Next(x), pid);
      if Preempts(x, pid) { OnePreemptedProcess(x, pid); }
    } else {
      StayAddsNoHop(x, Next(x), pid);
    }
  }

  /**
   * For every plan and runs of any length: a process is preempted at most as often as its tasks have
   * later runs of the process to hop to (prediction_failure_handling.c:30-52, 72-99).
   */
  lemma PreemptionsUseHops(s: State, pid: int, n: nat)
    requires Inv(s) && 0 <= pid
    ensures Preemptions(s, pid, n) <= Hops(s.tasks[s.cur..], pid)
  {
    var hit, inv, credit := x => Preempts(x, pid), x => Inv(x), x => HopsLeft(x, pid);
    forall x {:trigger Next(x)} | inv(x)
      ensures inv(Next(x)) && credit(Next(x)) + (if hit(x) then 1 else 0) <= credit(x)
    {
      NextUsesHops(x, pid);
    }
    CreditBoundsTally(Next, hit, inv, credit, s, n);
    assert Preemptions(s, pid, n) == Tally(Next, hit, s, n);
    HopsAreNatural(Run(s, n).tasks[Run(s, n).cur..], pid);
  }

  lemma OneFactorMore(count: int, each: int)
    ensures count * each == (count - 1) * each + each
  {
  }

  lemma {:induction false} HopsPerTask(ts: seq<Task>, pid: int, count: int, each: int)
    requires forall i :: 0 <= i < |ts| && ts[i].pid == pid ==> ts[i].Real()
    requires RunsOf(ts, pid) - 1 <= each && count == |TasksOf(ts, pid)|
    ensures Hops(ts, pid) <= count * each
    decreases |ts|
  {
    if ts == [] {
    } else {
      assert ts + [] == ts;
      if ts[0].pid == pid {
        HopsPerTask(ts[1..], pid, count - 1, each);
        OneFactorMore(count, each);
      } else {
        HopsPerTask(ts[1..], pid, count, each);
      }
    }
  }

  /** In terms of the plan alone: at most once for each of its tasks and each of its later runs. */
  lemma PreemptionsOfAnyPlan(s: State, pid: int, n: nat)
    requires Fresh(s) && 0 <= pid
    ensures Inv(s)
    ensures Preemptions(s, pid, n) <= |TasksOf(s.tasks, pid)| * Max(0, RunsOf(s.tasks, pid) - 1)
  {
    FreshInv(s);
    PreemptionsUseHops(s, pid, n);
    forall i | 0 <= i < |s.tasks| && s.tasks[i].pid == pid ensures s.tasks[i].Real() {
      if i < |s.tasks| - 1 { assert GoodEntry(s.tasks[i], s.processes, s.numProcesses); }
    }
    assert s.tasks[0..] == s.tasks;
    HopsPerTask(s.tasks, pid, |TasksOf(s.tasks, pid)|, Max(0, RunsOf(s.tasks, pid) - 1));
  }
}
