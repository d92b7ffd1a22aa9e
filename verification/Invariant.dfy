/** What every tick keeps, and the runs it therefore allows. */
module Invariant {
  import opened Config
  import opened Entities
  import opened Totals
  import opened Model
  import opened Layout
  import opened Accounting
  import opened Progress
  import opened Iteration

  /** The invariant of the scheduler between two ticks. */
  ghost predicate Inv(s: State) {
    && LaidOut(s)
    && Balanced(s)
    && Conserved(s.tasks)
    && Progressing(s, s.cur)
    && 0 <= s.stress <= STRESS_RESET
  }

  /** During a tick, after the current task retired its instructions. */
  ghost predicate InvMidTick(s: State) {
    && LaidOut(s) && Active(s)
    && Balanced(s)
    && Conserved(s.tasks)
    && Progressing(s, s.cur + 1)
    && JustTicked(s.Current())
    && 0 <= s.stress <= STRESS_RESET
  }

  lemma TickedKeeps(s: State)
    requires Inv(s) && Active(s)
    ensures InvMidTick(Ticked(s))
    ensures Ticked(s).cur == s.cur && SameLayout(s.tasks, Ticked(s).tasks)
  {
    RetireLaidOut(s, INS_PER_TICK);
    RetireBooks(s, INS_PER_TICK);
    TickedProgress(s);
    assert Ticked(s) == Retire(s, INS_PER_TICK);
  }

  /** The current task left behind, the cursor possibly on a free slot. */
  function Left(s: State): State
    requires Active(s)
  {
    SettleActive(s);
    ActiveIsBeforeTheEnd(Settle(s));
    Advance(Settle(s).(tasksFinished := Settle(s).tasksFinished + 1))
  }

  lemma LeftOrdered(s: State)
    requires InvMidTick(s)
    ensures Ordered(Left(s)) && (!Left(s).Current().Free() ==> Settled(Left(s)))
    ensures SameLayout(s.tasks, Left(s).tasks)
    ensures 0 <= Left(s).stress <= STRESS_RESET
  {
    SettleLayout(s);
    var s1 := Settle(s);
    var s2 := s1.(tasksFinished := s1.tasksFinished + 1);
    SameListLaidOut(s1, s2);
    AdvanceOrdered(s2);
    SameLayoutChains(s.tasks, s1.tasks, Advance(s2).tasks);
  }

  lemma LeftProgress(s: State)
    requires InvMidTick(s) && s.Current().state == TaskFinished
    ensures Progressing(Left(s), Left(s).cur)
  {
    SettleProgress(s);
    LeavingProgress(Settle(s));
  }

  /** A task is left only when it is done; its state is the asserted one (pb-scheduler.c:126). */
  lemma FinishKeeps(s: State)
    requires InvMidTick(s) && s.Current().state == TaskFinished
    ensures Inv(FinishTask(s))
    ensures SameLayout(s.tasks, FinishTask(s).tasks)
  {
    LeftOrdered(s);
    SettleBooks(s, Settle(s).tasksFinished + 1);
    LeftProgress(s);
    SkipKeeps(Left(s));
    SameLayoutChains(s.tasks, Left(s).tasks, SkipIfFree(Left(s)).tasks);
    FinishIsLeaving(s);
  }

  lemma FinishIsLeaving(s: State)
    requires Active(s)
    ensures FinishTask(s) == SkipIfFree(Left(s))
  {
  }

  lemma SkipKeeps(s: State)
    requires Ordered(s) && (!s.Current().Free() ==> Settled(s))
    requires Balanced(s) && Conserved(s.tasks) && Progressing(s, s.cur)
    requires 0 <= s.stress <= STRESS_RESET
    ensures Inv(SkipIfFree(s))
    ensures SameLayout(s.tasks, SkipIfFree(s).tasks)
  {
    SkipPlannedNonNegative(s);
    SkipIfFreeBooks(s);
    SkipIfFreeProgress(s);
    SkipIfFreeLaidOut(s);
    SkipStress(s);
  }

  lemma SkipStress(s: State)
    requires Shaped(s)
    ensures SkipIfFree(s).stress == s.stress && SkipIfFree(s).signals == s.signals && SkipIfFree(s).ticks == s.ticks
  {
  }

  lemma SkipPlannedNonNegative(s: State)
    requires Shaped(s) && Lengths(s.tasks)
    ensures s.Current().Free() ==> Advance(s).tasks[0].planned >= 0
  {
  }

  lemma SettleLayout(s: State)
    requires LaidOut(s) && Active(s)
    ensures LaidOut(Settle(s)) && Settle(s).cur == s.cur
    ensures SameLayout(s.tasks, Settle(s).tasks)
    ensures 0 <= s.stress <= STRESS_RESET ==> 0 <= Settle(s).stress <= STRESS_RESET
  {
    SettleActive(s);
    ActiveIsBeforeTheEnd(s);
    if TM2Due(s) { SignalLaidOut(s, TM2); }
    SameLayoutOrdered(s, Settle(s));
  }

  lemma AfterT2Keeps(s: State)
    requires InvMidTick(s)
    ensures InvMidTick(AfterT2(s))
    ensures AfterT2(s).cur == s.cur && AfterT2(s).Current().state == s.Current().state
    ensures SameLayout(s.tasks, AfterT2(s).tasks)
    ensures SameProgress(s.tasks, AfterT2(s).tasks)
  {
    ActiveIsBeforeTheEnd(s);
    if T2Due(s) {
      SignalLaidOut(s, T2);
      SignalBooks(s, T2);
      SignalProgress(s, T2, s.cur + 1);
    }
  }

  lemma PreemptKeeps(s: State)
    requires LaidOut(s) && Active(s) && Balanced(s) && Conserved(s.tasks) && Progressing(s, s.cur)
    requires 0 <= s.stress <= STRESS_RESET
    ensures Ordered(Preempt(s))
    ensures Inv(SkipIfFree(Preempt(s)))
  {
    ActiveIsBeforeTheEnd(s);
    assert Resting(s.Current());
    PreemptOrdered(s);
    PreemptBooks(s);
    PreemptProgress(s);
    SkipKeeps(Preempt(s));
  }

  lemma ContinueKeeps(s: State)
    requires InvMidTick(s) && s.Current().state != TaskFinished
    ensures Inv(ContinueTask(s))
  {
    AfterT2Keeps(s);
    var s1 := AfterT2(s);
    assert Resting(s1.Current());
    assert Progressing(s1, s1.cur);
    if CheckT1(s1) {
      PreemptKeeps(s1);
    } else {
      SameListLaidOut(s1, ContinueTask(s));
      SameBooks(s1, ContinueTask(s));
    }
  }

  /** Every tick keeps the invariant. */
  lemma TickKeeps(s: State)
    requires Inv(s)
    ensures s.Current().End() || Active(s)
    ensures Inv(Tick(s))
  {
    SettledCases(s);
    if !s.Current().End() {
      TickedKeeps(s);
      var s1 := Ticked(s);
      if s1.Current().state == TaskFinished {
        FinishKeeps(s1);
        InvIgnoresTheClock(FinishTask(s1), Tick(s));
      } else {
        ContinueKeeps(s1);
        InvIgnoresTheClock(ContinueTask(s1), Tick(s));
      }
    }
  }

  lemma InvIgnoresTheClock(s: State, t: State)
    requires Inv(s) && t == s.(ticks := t.ticks)
    ensures Inv(t)
  {
    SameListLaidOut(s, t);
    SameBooks(s, t);
  }

  /** A plan as it comes from the parser (parse_plan.c:99-149) with nothing run yet. */
  predicate Fresh(s: State) {
    && Shaped(s)
    && s.cur == 0 && s.curProcess == s.Current().pid && !s.Current().Free()
    && DistinctIds(s.tasks) && FreeApart(s.tasks, 0) && Lengths(s.tasks)
    && (forall i :: 0 <= i < |s.tasks| - 1 ==> Untouched(s.tasks[i]))
    && s.retired == 0 && (forall p :: 0 <= p < s.numProcesses ==> s.processes[p].retired == 0)
    && s.tasksFinished == 0 && s.stress == 0
  }

  /** Every fresh plan has the invariant. */
  lemma FreshInv(s: State)
    requires Fresh(s)
    ensures Inv(s)
  {
    forall i {:trigger HasOwner(s.tasks, i)} | 0 <= i < |s.tasks| - 1 && s.tasks[i].Real()
      ensures HasOwner(s.tasks, i)
    {
      assert Owns(s.tasks, i, i);
    }
    forall scope
      ensures Total(OnSlot(scope), s.tasks) == 0 == Total(OnTask(scope), s.tasks)
      ensures Booked(s.tasks, 0, scope) == 0
    {
      TotalOfNothing(OnSlot(scope), s.tasks);
      TotalOfNothing(OnTask(scope), s.tasks);
      assert s.tasks[0..] == s.tasks && s.tasks[..0] == [];
    }
  }

  lemma {:induction false} TotalOfNothing(g: Gauge, ts: seq<Task>)
    requires forall i :: 0 <= i < |ts| ==> Weight(g, ts[i]) == 0
    ensures Total(g, ts) == 0
  {
    if ts == [] {
    } else {
      TotalOfNothing(g, ts[1..]);
    }
  }

  /** A tick, for states that have the invariant. */
  ghost function Next(s: State): (t: State)
    ensures Inv(s) ==> Inv(t)
  {
    if Inv(s) then TickKeeps(s); Tick(s) else s
  }

  /** The state after `n` ticks. */
  ghost function Run(s: State, n: nat): (r: State)
    requires Inv(s)
    ensures Inv(r)
  {
    RunInduction(s, n, (x, k) => true);
    Iterate(Next, s, n)
  }

  /** Induction over runs. */
  lemma RunInduction(s: State, n: nat, P: (State, nat) -> bool)
    requires Inv(s)
    requires P(s, 0)
    requires forall x, k: nat {:trigger Next(x), P(x, k)} :: Inv(x) && P(x, k) ==> P(Next(x), k + 1)
    ensures Inv(Iterate(Next, s, n)) && P(Iterate(Next, s, n), n)
  {
    var Q := (x, k: nat) => Inv(x) && P(x, k);
    forall x, k: nat {:trigger Next(x), Q(x, k)} | Q(x, k) ensures Q(Next(x), k + 1) {
      var y := Next(x);
      assert Inv(y) && P(y, k + 1);
    }
    IterateInduction(Next, s, n, Q);
  }

  /** One more tick of a run. */
  lemma NextRun(s: State, n: nat)
    requires Inv(s)
    ensures Run(s, n + 1) == Next(Run(s, n))
  {
  }
}
