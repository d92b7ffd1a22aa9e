/** How many ticks a plan takes, and what it looks like when it is over. */
module Termination {
  import opened Config
  import opened Entities
  import opened Totals
  import opened Model
  import opened Layout
  import opened Accounting
  import opened Progress
  import opened Iteration
  import opened Invariant
  import opened Steps

  /** The ticks that the unfinished tasks still need if they run undisturbed. */
  function Potential(s: State): int
    requires 0 <= s.cur <= |s.tasks|
  {
    Total(TicksLeft, s.tasks[s.cur..])
  }

  /** A task that is not done after a tick needs exactly one tick less; one that is had only one left. */
  lemma TickShortens(missing: int)
    requires missing >= 0
    ensures missing > INS_PER_TICK ==> TicksFor(missing - INS_PER_TICK) == TicksFor(missing) - 1
    ensures missing <= INS_PER_TICK ==> TicksFor(missing) == 1
  {
    assert INS_PER_TICK == 10_000_000;
    var q, r := (missing + 9_999_999) / 10_000_000, (missing + 9_999_999) % 10_000_000;
    assert missing + 9_999_999 == q * 10_000_000 + r;
  }

  lemma SameProgressPotential(a: seq<Task>, b: seq<Task>, cur: int)
    requires SameProgress(a, b) && 0 <= cur <= |a|
    ensures Total(TicksLeft, a[cur..]) == Total(TicksLeft, b[cur..])
  {
    TotalSame(TicksLeft, a[cur..], b[cur..]);
  }

  lemma RetirePotential(s: State, n: int)
    requires LaidOut(s) && Active(s)
    ensures Potential(Retire(s, n)) ==
            Potential(s) - Weight(TicksLeft, s.Current()) + Weight(TicksLeft, RetireOnTask(s.Current(), n))
  {
    RetireTouches(s, n);
    var t := RetireOnTask(s.Current(), n);
    var ts1 := s.tasks[s.cur := t];
    var o := SlotIndex(ts1, s.cur);
    TotalUpdateBehind(TicksLeft, s.tasks, s.cur, s.cur, t);
    TotalUpdateBehind(TicksLeft, ts1, s.cur, o, ts1[o].(retiredSlot := ts1[o].retiredSlot + n));
  }

  /** Right after the tick's instructions: one tick less to go, or the task is done and had one to go. */
  lemma TickedPotential(s: State)
    requires Inv(s) && Active(s)
    ensures LaidOut(Ticked(s)) && Ticked(s).cur == s.cur
    ensures Ticked(s).Current().state == TaskFinished ==>
              Potential(Ticked(s)) - Weight(TicksLeft, Ticked(s).Current()) == Potential(s) - 1
    ensures Ticked(s).Current().state != TaskFinished ==> Potential(Ticked(s)) == Potential(s) - 1
  {
    ActiveIsBeforeTheEnd(s);
    TickedKeeps(s);
    RetirePotential(s, INS_PER_TICK);
    RetireTouches(s, INS_PER_TICK);
    assert Resting(s.Current());
    TickShortens(s.Current().actual - s.Current().retiredTask);
  }

  lemma SamePotential(s: State, t: State)
    requires 0 <= s.cur == t.cur <= |s.tasks|
    requires SameProgress(s.tasks, t.tasks)
    ensures Potential(s) == Potential(t)
  {
    SameProgressPotential(s.tasks, t.tasks, s.cur);
  }

  lemma NothingSameProgress(ts: seq<Task>, cur: int)
    requires 0 <= cur < |ts|
    ensures SameProgress(ts, RetireInTasks(ts, cur, 0))
  {
  }

  lemma AdvanceSameProgress(s: State)
    requires Shaped(s) && s.cur + 1 < |s.tasks|
    ensures SameProgress(s.tasks, Advance(s).tasks)
  {
  }

  lemma SameProgressChains(a: seq<Task>, b: seq<Task>, c: seq<Task>)
    requires SameProgress(a, b) && SameProgress(b, c)
    ensures SameProgress(a, c)
  {
  }

  lemma ChargeSameProgress(t: State, n: int)
    requires Shaped(t) && n <= 0
    ensures SameProgress(t.tasks, UpdateRetired(t, n).tasks)
  {
    if n == 0 { NothingSameProgress(t.tasks, t.cur); }
  }

  lemma FreeSlotSameProgress(s: State)
    requires Shaped(s) && s.tasks[0].planned >= 0 && s.Current().Free()
    ensures SameProgress(s.tasks, SkipFreeSlot(s).tasks)
  {
    AdvanceSameProgress(s);
    var t := Advance(s);
    ChargeSameProgress(t, -t.tasks[0].planned);
    SameProgressChains(s.tasks, t.tasks, SkipFreeSlot(s).tasks);
  }

  lemma SkipSameProgress(s: State)
    requires Shaped(s) && Lengths(s.tasks)
    ensures SameProgress(s.tasks, SkipIfFree(s).tasks)
  {
    if s.Current().Free() {
      assert s.cur != |s.tasks| - 1;
      FreeSlotSameProgress(s);
    }
  }

  lemma SkipPotential(s: State)
    requires Shaped(s) && Lengths(s.tasks) && Shaped(SkipIfFree(s))
    ensures Potential(SkipIfFree(s)) == Potential(s)
  {
    if s.Current().Free() {
      SkipSameProgress(s);
      SkipCursor(s);
      TotalStep(TicksLeft, s.tasks, s.cur);
      SameProgressPotential(s.tasks, SkipIfFree(s).tasks, s.cur + 1);
    }
  }

  lemma FinishPotential(s: State)
    requires InvMidTick(s) && s.Current().state == TaskFinished
    ensures Shaped(FinishTask(s))
    ensures Potential(FinishTask(s)) == Potential(s) - Weight(TicksLeft, s.Current())
  {
    LeftOrdered(s);
    LeftProgress(s);
    LeftCursor(s);
    TotalStep(TicksLeft, s.tasks, s.cur);
    LeftSameProgress(s);
    SameProgressPotential(s.tasks, Left(s).tasks, s.cur + 1);
    SkipIfFreeLaidOut(Left(s));
    SkipPotential(Left(s));
    FinishIsLeaving(s);
  }

  lemma LeftSameProgress(s: State)
    requires Active(s)
    ensures SameProgress(s.tasks, Left(s).tasks)
  {
    ActiveIsBeforeTheEnd(s);
    SettleActive(s);
    var s1 := if TM2Due(s) then RaiseSignal(s, TM2) else s;
    assert SameProgress(s.tasks, s1.tasks);
    assert SameProgress(s1.tasks, Left(s).tasks);
  }

  lemma MoveStackPotential(s: State)
    requires Active(s) && Lengths(s.tasks)
    requires InsertionSlot(s.tasks, s.cur, s.Current().pid) != -2
    ensures MoveStack(s).cur == s.cur && |MoveStack(s).tasks| == |s.tasks|
    ensures Potential(MoveStack(s)) == Potential(s)
  {
    StackFitsSlot(s.tasks, s.cur);
    var slot, k := InsertionSlot(s.tasks, s.cur, s.Current().pid), StackSize(s.tasks, s.cur);
    var s1 := s.(tasks := Rotate(s.tasks, s.cur, k, slot));
    RotateTotals(TicksLeft, s.tasks, s.cur, k, slot);
    SamePotential(s1, Enter(s1));
  }

  lemma ForceFinishPotential(s: State)
    requires LaidOut(s) && Active(s)
    requires Resting(s.Current())
    ensures ForceFinish(s).cur == s.cur && |ForceFinish(s).tasks| == |s.tasks|
    ensures Potential(ForceFinish(s)) == Potential(s) - Weight(TicksLeft, s.Current()) + 1
  {
    var n := s.Current().actual - s.Current().retiredTask;
    RetirePotential(s, n);
    assert ForceFinish(s) == Retire(s, n).(status := PlanFinished);
    TickShortens(0);
  }

  /** Preempting a task costs and saves nothing; running it to its end at once may save ticks. */
  lemma PreemptPotential(s: State)
    requires InvMidTick(s) && s.Current().state != TaskFinished
    ensures Preempt(s).cur == s.cur && |Preempt(s).tasks| == |s.tasks|
    ensures InsertionSlot(s.tasks, s.cur, s.Current().pid) != -2 ==> Potential(Preempt(s)) == Potential(s)
    ensures InsertionSlot(s.tasks, s.cur, s.Current().pid) == -2 ==>
              Potential(Preempt(s)) == Potential(s) - Weight(TicksLeft, s.Current()) + 1
  {
    CountPreemptionLaidOut(s);
    var s1 := CountPreemption(s);
    SamePotential(s, s1);
    SameLayoutSearches(s.tasks, s1.tasks, s.cur);
    if InsertionSlot(s1.tasks, s1.cur, s1.Current().pid) == -2 {
      ForceFinishPotential(s1);
    } else {
      MoveStackPotential(s1);
    }
  }

  lemma TicksLeftIsPositive(t: Task)
    requires t.Real()
    ensures Weight(TicksLeft, t) >= 1
  {
  }

  lemma PreemptThenSkipPotential(s: State)
    requires InvMidTick(s) && s.Current().state != TaskFinished
    ensures Shaped(Preempt(s)) && Shaped(SkipIfFree(Preempt(s)))
    ensures Potential(SkipIfFree(Preempt(s))) <= Potential(s)
    ensures InsertionSlot(s.tasks, s.cur, s.Current().pid) != -2 ==>
              Potential(SkipIfFree(Preempt(s))) == Potential(s)
  {
    assert Resting(s.Current());
    assert Progressing(s, s.cur);
    PreemptKeeps(s);
    PreemptPotential(s);
    PreemptProgress(s);
    SkipPotential(Preempt(s));
    TicksLeftIsPositive(s.Current());
  }

  lemma ContinuePotential(s: State)
    requires InvMidTick(s) && s.Current().state != TaskFinished
    ensures Shaped(ContinueTask(s)) && Active(AfterT2(s))
    ensures Potential(ContinueTask(s)) <= Potential(s)
    ensures !CheckT1(AfterT2(s)) || InsertionSlot(AfterT2(s).tasks, s.cur, AfterT2(s).Current().pid) != -2 ==>
              Potential(ContinueTask(s)) == Potential(s)
  {
    AfterT2Keeps(s);
    var s1 := AfterT2(s);
    SamePotential(s, s1);
    if CheckT1(s1) {
      PreemptThenSkipPotential(s1);
      assert ContinueTask(s) == SkipIfFree(Preempt(s1));
    } else {
      assert ContinueTask(s) == s1.(stress := Relax(s1.stress));
    }
  }

  lemma CompletingTickPotential(s: State)
    requires Inv(s) && Active(s) && EventOf(s) == Completed
    ensures 0 <= Tick(s).cur < |Tick(s).tasks|
    ensures Potential(Tick(s)) == Potential(s) - 1
  {
    TickedKeeps(s);
    TickedPotential(s);
    FinishPotential(Ticked(s));
    assert Tick(s).tasks == FinishTask(Ticked(s)).tasks && Tick(s).cur == FinishTask(Ticked(s)).cur;
  }

  lemma OtherTickPotential(s: State)
    requires Inv(s) && Active(s) && EventOf(s) != Completed
    ensures 0 <= Tick(s).cur < |Tick(s).tasks|
    ensures Potential(Tick(s)) <= Potential(s) - 1
    ensures EventOf(s) != NoSlot ==> Potential(Tick(s)) == Potential(s) - 1
  {
    TickedKeeps(s);
    TickedPotential(s);
    ContinuePotential(Ticked(s));
    assert Tick(s).tasks == ContinueTask(Ticked(s)).tasks && Tick(s).cur == ContinueTask(Ticked(s)).cur;
  }

  /** Every tick brings the end one tick nearer, the no-slot path possibly more. */
  lemma TickPotential(s: State)
    requires Inv(s) && Active(s)
    ensures 0 <= Tick(s).cur < |Tick(s).tasks|
    ensures Potential(Tick(s)) <= Potential(s) - 1
    ensures EventOf(s) != NoSlot ==> Potential(Tick(s)) == Potential(s) - 1
  {
    if EventOf(s) == Completed {
      CompletingTickPotential(s);
    } else {
      OtherTickPotential(s);
    }
  }

  /** The potential is zero exactly on the sentinel. */
  lemma PotentialZeroAtEnd(s: State)
    requires Inv(s)
    ensures Potential(s) >= 0
    ensures Potential(s) == 0 <==> s.Current().End()
  {
    SettledCases(s);
    if s.Current().End() {
      assert s.tasks[s.cur..] == [s.Current()];
      TotalOne(TicksLeft, s.Current());
    } else {
      TotalNonNegative(TicksLeft, s.tasks[s.cur..]);
      assert s.tasks[s.cur..][0] == s.Current();
      TicksLeftIsPositive(s.Current());
    }
  }

  ghost predicate TakesNoSlotPath(s: State) {
    Inv(s) && (TickKeeps(s); EventOf(s) == NoSlot)
  }

  /** How often the no-slot path was taken in the first `n` ticks. */
  ghost function NoSlotCount(s: State, n: nat): nat {
    Tally(Next, TakesNoSlotPath, s, n)
  }

  ghost function Remaining(s: State): int {
    if Inv(s) then Potential(s) else 0
  }

  lemma NextRemaining(x: State)
    requires Inv(x)
    ensures Inv(Next(x))
    ensures 0 <= Remaining(Next(x)) <= AtLeastZero(Remaining(x) - 1)
    ensures !TakesNoSlotPath(x) ==> Remaining(Next(x)) == AtLeastZero(Remaining(x) - 1)
  {
    TickKeeps(x);
    PotentialZeroAtEnd(x);
    PotentialZeroAtEnd(Tick(x));
    if !x.Current().End() {
      TickPotential(x);
    }
  }

  /**
   * Whatever is preempted or rescheduled on the way, after `n` ticks at most `Potential(s) - n`
   * remain; exactly that many if the no-slot path was never taken.
   */
  lemma RunPotential(s: State, n: nat)
    requires Inv(s)
    ensures 0 <= Remaining(Run(s, n)) <= AtLeastZero(Remaining(s) - n)
    ensures NoSlotCount(s, n) == 0 ==> Remaining(Run(s, n)) == AtLeastZero(Remaining(s) - n)
  {
    forall x {:trigger Next(x)} | Inv(x)
      ensures Inv(Next(x)) && 0 <= Remaining(Next(x)) <= AtLeastZero(Remaining(x) - 1)
      ensures !TakesNoSlotPath(x) ==> Remaining(Next(x)) == AtLeastZero(Remaining(x) - 1)
    {
      NextRemaining(x);
    }
    PotentialZeroAtEnd(s);
    Countdown(Next, TakesNoSlotPath, Inv, Remaining, s, n);
  }

  /** Termination with a bound. */
  lemma RunEnds(s: State, n: nat)
    requires Inv(s)
    requires n >= Potential(s)
    ensures Run(s, n).Current().End()
  {
    RunPotential(s, n);
    PotentialZeroAtEnd(Run(s, n));
  }

  /** Without the no-slot path the bound is exact. */
  lemma RunEndsExactly(s: State, n: nat)
    requires Inv(s) && NoSlotCount(s, n) == 0
    ensures Run(s, n).Current().End() <==> n >= Potential(s)
  {
    RunPotential(s, n);
    PotentialZeroAtEnd(Run(s, n));
  }

  /**
   * Each task is finished exactly once: when the sentinel is reached, the entries before it are the
   * entries of the start, every task among them is done, and the count of finished tasks is theirs.
   */
  lemma EverythingFinishedAtTheEnd(s: State, n: nat)
    requires Inv(s)
    requires Run(s, n).Current().End()
    ensures var r := Run(s, n);
            && multiset(Identities(r.tasks)) == multiset(Identities(s.tasks))
            && (forall i :: 0 <= i < |r.tasks| - 1 && r.tasks[i].Real() ==> Done(r.tasks[i]))
            && r.tasksFinished == Total(TaskCount, r.tasks)
  {
    RunKeepsIdentities(s, n);
    AllDoneOnSentinel(Run(s, n));
  }

  lemma AllDoneOnSentinel(r: State)
    requires Inv(r) && r.Current().End()
    ensures forall i :: 0 <= i < |r.tasks| - 1 && r.tasks[i].Real() ==> Done(r.tasks[i])
    ensures r.tasksFinished == Total(TaskCount, r.tasks)
  {
    SettledCases(r);
    SplitTotal(TaskCount, r.tasks, r.cur);
    assert r.tasks[r.cur..] == [r.Current()];
    TotalOne(TaskCount, r.Current());
  }

  /** The cursor counts the finished tasks and the free slots passed (pb-scheduler.c:128-129, 168). */
  lemma CursorCounts(s: State)
    requires Inv(s)
    ensures s.cur == s.tasksFinished + Total(FreeCount, s.tasks[..s.cur])
  {
    assert forall i :: 0 <= i < s.cur ==> GoodEntry(s.tasks[i], s.processes, s.numProcesses);
    CountsAddUp(s.tasks[..s.cur]);
  }

  /** The ticks that a list of tasks takes if each is run undisturbed: at least one each. */
  function TickBudget(ts: seq<Task>): int {
    if ts == [] then 0
    else (if ts[0].Real() then TicksFor(ts[0].actual) else 0) + TickBudget(ts[1..])
  }

  lemma {:induction false} BudgetOfUntouched(ts: seq<Task>)
    requires forall i :: 0 <= i < |ts| && ts[i].Real() ==> ts[i].retiredTask == 0
    ensures Total(TicksLeft, ts) == TickBudget(ts)
  {
    if ts == [] {
    } else {
      BudgetOfUntouched(ts[1..]);
    }
  }

  /**
   * A fresh plan reaches its sentinel within the sum of max(1, ceil(real / INS_PER_TICK)) over its
   * tasks, and not earlier unless the no-slot path cut a task short.
   */
  lemma FreshPlanEnds(s: State, n: nat)
    requires Fresh(s)
    ensures Inv(s)
    ensures n >= TickBudget(s.tasks) ==> Run(s, n).Current().End()
    ensures NoSlotCount(s, n) == 0 ==> (Run(s, n).Current().End() <==> n >= TickBudget(s.tasks))
  {
    FreshInv(s);
    BudgetOfUntouched(s.tasks);
    assert s.tasks[0..] == s.tasks;
    if n >= TickBudget(s.tasks) { RunEnds(s, n); }
    if NoSlotCount(s, n) == 0 { RunEndsExactly(s, n); }
  }

  // ----- the clock and the status -----

  lemma SettleClock(s: State)
    requires Active(s)
    ensures Left(s).ticks == s.ticks && Left(s).status == s.status
  {
    ActiveIsBeforeTheEnd(s);
    SettleActive(s);
  }

  lemma SkipClock(s: State)
    requires Shaped(s)
    ensures SkipIfFree(s).ticks == s.ticks && SkipIfFree(s).status == s.status
  {
  }

  lemma AfterT2Clock(s: State)
    requires Active(s)
    ensures AfterT2(s).ticks == s.ticks && AfterT2(s).status == s.status
  {
    ActiveIsBeforeTheEnd(s);
  }

  lemma PreemptClock(s: State)
    requires Shaped(s) && s.Current().retiredTask <= s.Current().actual
    ensures Preempt(s).ticks == s.ticks
    ensures Preempt(s).status ==
            if InsertionSlot(s.tasks, s.cur, s.Current().pid) == -2 then PlanFinished else s.status
  {
    CountPreemptionShaped(s);
    SameLayoutSearches(s.tasks, CountPreemption(s).tasks, s.cur);
  }

  lemma ContinueClock(s: State)
    requires InvMidTick(s) && s.Current().state != TaskFinished
    ensures Active(AfterT2(s)) && ContinueTask(s).ticks == s.ticks
    ensures ContinueTask(s).status ==
            var t := AfterT2(s);
            if CheckT1(t) && InsertionSlot(t.tasks, t.cur, t.Current().pid) == -2 then PlanFinished else s.status
  {
    AfterT2Keeps(s);
    AfterT2Clock(s);
    var t := AfterT2(s);
    assert JustTicked(t.Current());
    if CheckT1(t) {
      PreemptShaped(t);
      PreemptClock(t);
      SkipClock(Preempt(t));
    }
  }

  /** A tick counts itself, and only the no-slot path sets the status (prediction_failure_handling.c:61). */
  lemma TickClock(s: State)
    requires Inv(s) && Active(s)
    ensures Tick(s).ticks == s.ticks + 1
    ensures Tick(s).status == if EventOf(s) == NoSlot then PlanFinished else s.status
  {
    TickedKeeps(s);
    var s1 := Ticked(s);
    if s1.Current().state == TaskFinished {
      LeftOrdered(s1);
      FinishIsLeaving(s1);
      SettleClock(s1);
      SkipClock(Left(s1));
    } else {
      ContinueClock(s1);
    }
  }

  lemma NextClock(x: State)
    requires Inv(x)
    ensures Next(x).ticks <= x.ticks + 1
    ensures Next(x).status == if TakesNoSlotPath(x) then PlanFinished else x.status
  {
    TickKeeps(x);
    if !x.Current().End() { TickClock(x); }
  }

  /** The plan's status tells whether the no-slot path was ever taken. */
  lemma StatusTellsNoSlot(s: State, n: nat)
    requires Inv(s) && s.status != PlanFinished
    ensures Run(s, n).status != PlanFinished <==> NoSlotCount(s, n) == 0
  {
    var P := (x: State, k: nat, c: nat) => Inv(x) && (x.status != PlanFinished <==> c == 0);
    forall x, k: nat, c: nat {:trigger Next(x), P(x, k, c)} | P(x, k, c)
      ensures P(Next(x), k + 1, c + if TakesNoSlotPath(x) then 1 else 0)
    {
      NextClock(x);
    }
    TallyInduction(Next, TakesNoSlotPath, s, n, P);
  }

  /** A plan that is not marked as finished on the sentinel took all the ticks that its tasks needed. */
  lemma UnmarkedEndIsExact(s: State, n: nat)
    requires Inv(s) && s.status != PlanFinished && n <= Potential(s)
    requires Run(s, n).Current().End() && Run(s, n).status != PlanFinished
    ensures n == Potential(s)
  {
    StatusTellsNoSlot(s, n);
    RunEndsExactly(s, n);
  }
}
