/** A whole run on the arrays, and what holds in all of its states. */
module FullRun {
  import opened Config
  import opened Entities
  import opened Totals
  import opened Model
  import opened Layout
  import opened Accounting
  import opened Invariant
  import opened Termination
  import opened Scheduler

  /** One iteration of the tick loop, that finds the plan as `x`. */
  lemma OneMoreTick(start: State, n: nat, x: State)
    requires Inv(start) && x == Run(start, n)
    requires 0 <= x.cur < |x.tasks| && !x.Current().End()
    ensures Active(x)
    ensures Tick(x) == Run(start, n + 1) && Tick(x).ticks == x.ticks + 1
    ensures 0 <= Tick(x).cur < |Tick(x).tasks|
    ensures 0 <= Potential(Tick(x)) <= Potential(x) - 1
  {
    SettledCases(x);
    TickKeeps(x);
    TickPotential(x);
    TickClock(x);
    PotentialZeroAtEnd(Tick(x));
    NextRun(start, n);
  }

  /** What the tick loop knows after `n` ticks. */
  ghost predicate TickedSoFar(start: State, n: nat, x: State) {
    Inv(start) && x == Run(start, n) && x.ticks == start.ticks + n && 0 <= Potential(x) <= Potential(start) - n
  }

  /** The body of the tick loop (main.c:592-596). */
  method TickOnce(p: Plan, ghost start: State, ghost n: nat) returns (ghost m: nat)
    requires p.Valid() && TickedSoFar(start, n, p.View()) && !p.View().Current().End()
    modifies p, p.tasks, p.processes, p.signals, p.signals.ring
    ensures p.Valid() && p.end == old(p.end)
    ensures m == n + 1 && TickedSoFar(start, m, p.View())
    ensures Potential(p.View()) < Potential(old(p.View()))
  {
    OneMoreTick(start, n, p.View());
    p.RunTimerTick();
    m := n + 1;
  }

  /**
   * The tick loop of main.c:591-597: it ends on the sentinel after at most the ticks that were left, and
   * the plan has counted them.
   * What the plan then looks like is Termination.EverythingFinishedAtTheEnd.
   */
  method RunToSentinel(p: Plan) returns (ghost n: nat)
    requires p.Valid() && Inv(p.View())
    modifies p, p.tasks, p.processes, p.signals, p.signals.ring
    ensures p.Valid() && p.end == old(p.end)
    ensures p.View() == Run(old(p.View()), n)
    ensures p.tickCounter == old(p.tickCounter) + n && n <= Potential(old(p.View()))
    ensures p.View().Current().End()
  {
    ghost var start := p.View();
    n := 0;
    PotentialZeroAtEnd(start);
    while p.tasks[p.curTask].id != -2
      invariant p.Valid() && p.end == old(p.end)
      invariant TickedSoFar(start, n, p.View())
      decreases Potential(p.View())
    {
      assert p.tasks[p.curTask] == p.View().Current();
      n := TickOnce(p, start, n);
    }
    assert p.tasks[p.curTask] == p.View().Current();
  }

  // ----- every reachable state -----

  /** The books of the plan and of every process are exact after any number of ticks. */
  lemma BooksAreExact(s: State, n: nat, scope: Scope)
    requires Fresh(s)
    ensures Inv(s)
    ensures var r := Run(s, n);
            ValidScope(r, scope) ==>
              RetiredBy(r, scope) == Total(Actual(scope), r.tasks[..r.cur]) + Total(OnSlot(scope), r.tasks[r.cur..])
  {
    FreshInv(s);
    var r := Run(s, n);
    assert ValidScope(r, scope) ==> RetiredBy(r, scope) == Booked(r.tasks, r.cur, scope);
  }

  /** What is booked on the slots of a process is what its tasks have run, after any number of ticks. */
  lemma WorkIsConserved(s: State, n: nat, scope: Scope)
    requires Fresh(s)
    ensures Inv(s)
    ensures Total(OnSlot(scope), Run(s, n).tasks) == Total(OnTask(scope), Run(s, n).tasks)
  {
    FreshInv(s);
  }

  /** find_task_with_task_id finds the slot owner of entry `cur`: an unfinished task of the same process. */
  predicate OwnerFound(ts: seq<Task>, cur: int)
    requires 0 <= cur < |ts|
  {
    var o := SlotIndex(ts, cur);
    cur <= o < |ts| - 1 && ts[o].pid == ts[cur].pid && ts[o].id == ts[cur].slotOwner
  }

  /** The list as it is when `n` instructions of the current task are booked on its slot (plan.c:31-39). */
  function AtBooking(s: State, n: int): seq<Task>
    requires 0 <= s.cur < |s.tasks|
  {
    s.tasks[s.cur := RetireOnTask(s.Current(), n)]
  }

  lemma BookingFindsOwner(s: State, n: int)
    requires LaidOut(s) && Active(s)
    ensures OwnerFound(AtBooking(s, n), s.cur)
  {
    ActiveIsBeforeTheEnd(s);
    var s1 := s.(tasks := AtBooking(s, n));
    RetiredOnTaskShaped(s, n);
    SameLayoutOrdered(s, s1);
    SlotLookupSucceeds(s1);
  }

  /**
   * The lookups by slot owner of a tick never come back empty: neither the one that books the tick's
   * instructions, nor that of the T1 check after a possible T2 signal, nor the one that books the
   * instructions missing of a task that has no slot to go to (plan.c:34-39; threshold_checking.c:44-49;
   * prediction_failure_handling.c:59).
   */
  lemma TickLookupsSucceed(s: State, missing: int)
    requires Inv(s) && Active(s)
    ensures OwnerFound(AtBooking(s, INS_PER_TICK), s.cur)
    ensures Active(Ticked(s)) && Active(AfterT2(Ticked(s)))
    ensures OwnerFound(AfterT2(Ticked(s)).tasks, s.cur)
    ensures OwnerFound(AtBooking(CountPreemption(AfterT2(Ticked(s))), missing), s.cur)
  {
    BookingFindsOwner(s, INS_PER_TICK);
    TickedKeeps(s);
    AfterT2Keeps(Ticked(s));
    var s2 := AfterT2(Ticked(s));
    ActiveIsBeforeTheEnd(s2);
    SlotLookupSucceeds(s2);
    CountPreemptionLaidOut(s2);
    BookingFindsOwner(CountPreemption(s2), missing);
  }

  /** Every unfinished task of every reachable state has its slot owner ahead of it. */
  lemma OwnersAreAhead(s: State, n: nat, i: int)
    requires Fresh(s)
    ensures Inv(s)
    ensures var r := Run(s, n);
            r.cur <= i < |r.tasks| - 1 && r.tasks[i].Real() ==>
              exists j :: Owns(r.tasks, i, j)
  {
    FreshInv(s);
    var r := Run(s, n);
    if r.cur <= i < |r.tasks| - 1 && r.tasks[i].Real() {
      assert HasOwner(r.tasks, i);
    }
  }

  /** Where the cursor can be between two ticks. */
  lemma CursorIsSettled(s: State, n: nat)
    requires Fresh(s)
    ensures Inv(s)
    ensures var r := Run(s, n);
            && 0 <= r.cur < |r.tasks| && !r.Current().Free()
            && r.curProcess == r.Current().pid
            && r.cur == r.tasksFinished + Total(FreeCount, r.tasks[..r.cur])
            && forall i :: r.cur <= i < |r.tasks| - 1 ==> !FreePair(r.tasks, i)
  {
    FreshInv(s);
    CursorCounts(Run(s, n));
  }
}
