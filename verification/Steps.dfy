/** What one tick does to the task list: nothing but one rotation, and the cursor only moves forward. */
module Steps {
  import opened Entities
  import opened Model
  import opened Layout
  import opened Invariant

  lemma SameLayoutSearches(a: seq<Task>, b: seq<Task>, cur: int)
    requires SameLayout(a, b) && 0 <= cur < |a|
    ensures InsertionSlot(a, cur, a[cur].pid) == InsertionSlot(b, cur, b[cur].pid)
    ensures StackSize(a, cur) == StackSize(b, cur)
  {
    var pid := a[cur].pid;
    var e, f := RunEnd(a, cur, pid), RunEnd(b, cur, pid);
    assert e == f;
    var i, j := NextOf(a, e, pid), NextOf(b, e, pid);
    assert i == j;
    var x, y := StackEnd(a, cur, a[cur]), StackEnd(b, cur, b[cur]);
    assert x == y;
  }

  lemma SameLayoutRotates(a: seq<Task>, b: seq<Task>, cur: int, k: int, slot: int)
    requires SameLayout(a, b)
    requires 0 <= cur && 0 <= k && cur + k <= slot + 1 < |a|
    ensures SameLayout(Rotate(a, cur, k, slot), Rotate(b, cur, k, slot))
  {
    forall i | 0 <= i < |a|
      ensures var x, y := Rotate(a, cur, k, slot)[i], Rotate(b, cur, k, slot)[i];
              x.id == y.id && x.pid == y.pid && x.slotOwner == y.slotOwner && x.actual == y.actual
    {
      RotateAt(a, cur, k, slot, i);
      RotateAt(b, cur, k, slot, i);
    }
  }

  /** The list after the leading stack was moved back to its insertion slot. */
  function StackMoved(ts: seq<Task>, cur: int): (r: seq<Task>)
    requires 0 <= cur < |ts| && InsertionSlot(ts, cur, ts[cur].pid) != -2
    ensures |r| == |ts|
  {
    StackFitsSlot(ts, cur);
    Rotate(ts, cur, StackSize(ts, cur), InsertionSlot(ts, cur, ts[cur].pid))
  }

  lemma SameLayoutStackMoved(a: seq<Task>, b: seq<Task>, cur: int)
    requires SameLayout(a, b) && 0 <= cur < |a|
    requires InsertionSlot(a, cur, a[cur].pid) != -2
    ensures InsertionSlot(b, cur, b[cur].pid) != -2
    ensures SameLayout(StackMoved(a, cur), StackMoved(b, cur))
  {
    SameLayoutSearches(a, b, cur);
    StackFitsSlot(a, cur);
    SameLayoutRotates(a, b, cur, StackSize(a, cur), InsertionSlot(a, cur, a[cur].pid));
  }

  lemma MoveStackLayout(s: State)
    requires LaidOut(s) && Active(s)
    requires InsertionSlot(s.tasks, s.cur, s.Current().pid) != -2
    ensures SameLayout(StackMoved(s.tasks, s.cur), MoveStack(s).tasks) && MoveStack(s).cur == s.cur
  {
    StackFitsSlot(s.tasks, s.cur);
  }

  lemma SkipCursor(s: State)
    requires Shaped(s)
    ensures SkipIfFree(s).cur == if s.Current().Free() then s.cur + 1 else s.cur
  {
  }

  /** A tick that completes a task keeps the list and moves the cursor past it and a free slot behind it. */
  lemma CompletedStep(s: State)
    requires Inv(s) && Active(s)
    requires EventOf(s) == Completed
    ensures s.cur + 1 < |s.tasks|
    ensures SameLayout(s.tasks, Tick(s).tasks)
    ensures Tick(s).cur == if s.tasks[s.cur + 1].Free() then s.cur + 2 else s.cur + 1
  {
    TickedKeeps(s);
    var s1 := Ticked(s);
    FinishKeeps(s1);
    SameLayoutChains(s.tasks, s1.tasks, FinishTask(s1).tasks);
    LeftOrdered(s1);
    FinishIsLeaving(s1);
    LeftCursor(s1);
    SkipCursor(Left(s1));
    SameLayoutChains(s.tasks, s1.tasks, Left(s1).tasks);
    assert Tick(s).tasks == FinishTask(s1).tasks;
  }

  lemma LeftCursor(s: State)
    requires Active(s)
    ensures Left(s).cur == s.cur + 1 < |s.tasks|
  {
    SettleActive(s);
    ActiveIsBeforeTheEnd(s);
  }

  lemma NoSlotLayout(s: State)
    requires InvMidTick(s) && s.Current().state != TaskFinished
    requires InsertionSlot(s.tasks, s.cur, s.Current().pid) == -2
    ensures SameLayout(s.tasks, Preempt(s).tasks) && Preempt(s).cur == s.cur
    ensures Preempt(s) == ForceFinish(CountPreemption(s))
    ensures Shaped(Preempt(s))
    ensures SkipIfFree(Preempt(s)) == Preempt(s)
  {
    PreemptShaped(s);
    var t := CountPreemption(s);
    CountPreemptionLaidOut(s);
    ForceFinishLaidOut(t);
    SameLayoutSearches(s.tasks, t.tasks, s.cur);
    SameLayoutChains(s.tasks, t.tasks, ForceFinish(t).tasks);
  }

  /** A tick that neither completes nor moves a task keeps the list and the cursor. */
  lemma StayingStep(s: State)
    requires Inv(s) && Active(s)
    requires EventOf(s) == Continued || EventOf(s) == NoSlot
    ensures SameLayout(s.tasks, Tick(s).tasks) && Tick(s).cur == s.cur
  {
    TickedKeeps(s);
    var s1 := Ticked(s);
    AfterT2Keeps(s1);
    var s2 := AfterT2(s1);
    SameLayoutChains(s.tasks, s1.tasks, s2.tasks);
    if EventOf(s) == NoSlot {
      NoSlotLayout(s2);
      SameLayoutChains(s.tasks, s2.tasks, Preempt(s2).tasks);
    }
  }

  /** A preempting tick rotates the list and moves the cursor only past a free slot that came up. */
  lemma PreemptedStep(s: State)
    requires Inv(s) && Active(s)
    requires EventOf(s).Preempted?
    ensures EventOf(s).pid == s.Current().pid
    ensures InsertionSlot(s.tasks, s.cur, s.Current().pid) != -2
    ensures SameLayout(StackMoved(s.tasks, s.cur), Tick(s).tasks)
    ensures Tick(s).cur == if StackMoved(s.tasks, s.cur)[s.cur].Free() then s.cur + 1 else s.cur
  {
    TickedKeeps(s);
    var s1 := Ticked(s);
    AfterT2Keeps(s1);
    var s2 := AfterT2(s1);
    SameLayoutChains(s.tasks, s1.tasks, s2.tasks);
    CountPreemptionLaidOut(s2);
    var s3 := CountPreemption(s2);
    SameLayoutChains(s.tasks, s2.tasks, s3.tasks);
    SameLayoutSearches(s.tasks, s2.tasks, s.cur);
    SameLayoutSearches(s.tasks, s3.tasks, s.cur);
    SameLayoutStackMoved(s.tasks, s3.tasks, s.cur);
    MoveStackLayout(s3);
    var s4 := MoveStack(s3);
    assert Preempt(s2) == s4;
    MoveStackOrdered(s3);
    SkipIfFreeLaidOut(s4);
    SkipCursor(s4);
    SameLayoutChains(StackMoved(s.tasks, s.cur), StackMoved(s3.tasks, s.cur), s4.tasks);
    SameLayoutChains(StackMoved(s.tasks, s.cur), s4.tasks, SkipIfFree(s4).tasks);
    assert Tick(s).tasks == SkipIfFree(s4).tasks;
  }

  // ----- nothing is lost or duplicated -----

  /** The unchanging part of an entry. */
  function Identity(t: Task): (int, int, int) {
    (t.id, t.pid, t.actual)
  }

  function Identities(ts: seq<Task>): (r: seq<(int, int, int)>)
    ensures |r| == |ts|
  {
    seq(|ts|, i requires 0 <= i < |ts| => Identity(ts[i]))
  }

  lemma SameLayoutIdentities(a: seq<Task>, b: seq<Task>)
    requires SameLayout(a, b)
    ensures Identities(a) == Identities(b)
  {
  }

  /** The rotation is a permutation of the entries. */
  lemma RotateIdentities(ts: seq<Task>, cur: int, k: int, slot: int)
    requires 0 <= cur && 0 <= k && cur + k <= slot + 1 < |ts|
    ensures multiset(Identities(Rotate(ts, cur, k, slot))) == multiset(Identities(ts))
  {
    var front, stack := Identities(ts[..cur]), Identities(ts[cur..cur + k]);
    var mid, rest := Identities(ts[cur + k..slot + 1]), Identities(ts[slot + 1..]);
    assert Identities(ts) == front + stack + mid + rest;
    assert Identities(Rotate(ts, cur, k, slot)) == front + mid + stack + rest;
  }

  /** No tick loses, duplicates or alters a task's identity. */
  lemma TickKeepsIdentities(s: State)
    requires Inv(s)
    ensures s.Current().End() || Active(s)
    ensures multiset(Identities(Tick(s).tasks)) == multiset(Identities(s.tasks))
  {
    SettledCases(s);
    if !s.Current().End() {
      match EventOf(s) {
        case Completed => CompletedStep(s); SameLayoutIdentities(s.tasks, Tick(s).tasks);
        case Preempted(_) =>
          PreemptedStep(s);
          StackFitsSlot(s.tasks, s.cur);
          RotateIdentities(s.tasks, s.cur, StackSize(s.tasks, s.cur), InsertionSlot(s.tasks, s.cur, s.Current().pid));
          SameLayoutIdentities(StackMoved(s.tasks, s.cur), Tick(s).tasks);
        case _ => StayingStep(s); SameLayoutIdentities(s.tasks, Tick(s).tasks);
      }
    }
  }

  /** Over a whole run the list holds the same tasks. */
  lemma RunKeepsIdentities(s: State, n: nat)
    requires Inv(s)
    ensures multiset(Identities(Run(s, n).tasks)) == multiset(Identities(s.tasks))
  {
    var P := (x: State, k: nat) => multiset(Identities(x.tasks)) == multiset(Identities(s.tasks));
    forall x, k: nat | Inv(x) && P(x, k) ensures P(Next(x), k + 1) {
      TickKeepsIdentities(x);
    }
    RunInduction(s, n, P);
  }
}
