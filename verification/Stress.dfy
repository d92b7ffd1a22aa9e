/** How often T2 signals can come, what a tick writes to the signal log, and what T2 implies for T1. */
module Stress {
  import opened Config
  import opened Entities
  import opened Thresholds
  import opened Totals
  import opened Model
  import opened Accounting
  import opened Progress
  import opened Iteration
  import opened Invariant

  /** This state's tick raises a T2 signal. */
  ghost predicate RaisesT2(x: State) {
    Inv(x) && (TickKeeps(x); SignalsT2(x))
  }

  lemma PreemptStress(s: State)
    requires Shaped(s)
    ensures Shaped(Preempt(s))
    ensures SkipIfFree(Preempt(s)).stress == s.stress && SkipIfFree(Preempt(s)).signals == s.signals
  {
    PreemptShaped(s);
  }

  /** A tick takes at most one from the stress; one that raises a T2 signal leaves it at the top. */
  lemma NextStress(x: State)
    requires Inv(x)
    ensures Next(x).stress >= x.stress - 1
    ensures RaisesT2(x) ==> Next(x).stress >= STRESS_RESET - 1
  {
    TickKeeps(x);
    if !x.Current().End() {
      TickedKeeps(x);
      var s1 := Ticked(x);
      if s1.Current().state == TaskFinished {
        FinishStress(s1);
      } else {
        AfterT2Keeps(s1);
        PreemptStress(AfterT2(s1));
        ContinueStress(s1);
      }
    }
  }

  lemma FinishStress(s: State)
    requires InvMidTick(s)
    ensures FinishTask(s).stress >= s.stress - 1
    ensures FinishTask(s).signals ==
            if TM2Due(s) then s.signals + [Signal(s.Current().id, s.Current().pid, s.ticks, TM2)] else s.signals
  {
    LeftOrdered(s);
    FinishIsLeaving(s);
    SkipStress(Left(s));
    SettleLog(s);
  }

  lemma SettleLog(s: State)
    requires InvMidTick(s)
    ensures Left(s).stress >= s.stress - 1
    ensures Left(s).signals ==
            if TM2Due(s) then s.signals + [Signal(s.Current().id, s.Current().pid, s.ticks, TM2)] else s.signals
  {
    ActiveIsBeforeTheEnd(s);
  }

  lemma ContinueStress(s: State)
    requires InvMidTick(s)
    requires Active(AfterT2(s)) && Shaped(Preempt(AfterT2(s)))
    requires SkipIfFree(Preempt(AfterT2(s))).stress == AfterT2(s).stress
    requires SkipIfFree(Preempt(AfterT2(s))).signals == AfterT2(s).signals
    ensures ContinueTask(s).stress >= (if T2Due(s) then STRESS_RESET else s.stress) - 1
    ensures ContinueTask(s).signals ==
            if T2Due(s) then s.signals + [Signal(s.Current().id, s.Current().pid, s.ticks, T2)] else s.signals
  {
    ActiveIsBeforeTheEnd(s);
  }

  /** Below the preemption limit a T2 signal needs the stress to be gone (pb-scheduler.c:96). */
  lemma T2NeedsCalm(x: State)
    requires RaisesT2(x)
    requires x.Current().wasPreempted <= T2_MAX_PREEMPTIONS
    ensures x.stress == 0
  {
    TickKeeps(x);
  }

  function StressOf(x: State): int {
    x.stress
  }

  /** `k` ticks after a T2 signal at least STRESS_RESET - k of the stress is left, TM2 signals or not. */
  lemma StressDecays(s: State, first: nat, k: nat)
    requires Inv(s) && RaisesT2(Run(s, first)) && k >= 1
    ensures Run(s, first + k).stress >= STRESS_RESET - k
  {
    forall x {:trigger Next(x)} | Inv(x)
      ensures Inv(Next(x)) && StressOf(Next(x)) >= StressOf(x) - 1
      ensures RaisesT2(x) ==> StressOf(Next(x)) >= STRESS_RESET - 1
    {
      NextStress(x);
    }
    LevelAfterFiring(Next, Inv, RaisesT2, StressOf, STRESS_RESET, s, first, k);
  }

  /**
   * The rate limit: two T2 signals, the second for a task that was not preempted too often, are at
   * least STRESS_RESET ticks apart (pb-scheduler.c:83-84, 94-117).
   */
  lemma T2RateLimit(s: State, first: nat, gap: nat)
    requires Inv(s) && gap >= 1
    requires RaisesT2(Run(s, first)) && RaisesT2(Run(s, first + gap))
    requires Run(s, first + gap).Current().wasPreempted <= T2_MAX_PREEMPTIONS
    ensures gap >= STRESS_RESET
  {
    StressDecays(s, first, gap);
    T2NeedsCalm(Run(s, first + gap));
  }

  ghost predicate RaisesTM2(x: State) {
    Inv(x) && (TickKeeps(x); !x.Current().End() && Ticked(x).Current().state == TaskFinished && TM2Due(Ticked(x)))
  }

  /**
   * A tick logs at most one signal, of the current task and its process at this tick; the log grows
   * by a T2 entry exactly when a T2 signal is raised, by a TM2 entry exactly when a TM2 signal is.
   */
  lemma TickLogs(x: State)
    requires Inv(x)
    ensures !(RaisesT2(x) && RaisesTM2(x))
    ensures Next(x).signals == x.signals +
              if RaisesT2(x) then [Signal(x.Current().id, x.Current().pid, x.ticks, T2)]
              else if RaisesTM2(x) then [Signal(x.Current().id, x.Current().pid, x.ticks, TM2)]
              else []
  {
    TickKeeps(x);
    if !x.Current().End() {
      TickedKeeps(x);
      var s1 := Ticked(x);
      if s1.Current().state == TaskFinished {
        FinishStress(s1);
      } else {
        AfterT2Keeps(s1);
        PreemptStress(AfterT2(s1));
        ContinueStress(s1);
      }
    }
  }

  /**
   * A task in its own slot that exceeds its t2 is preempted in the same tick, although the T2 signal
   * may have stretched its plan in between (pb-scheduler.c:94-106).
   */
  lemma T2TaskMeansT1(s: State)
    requires Inv(s) && Active(s)
    requires Ticked(s).Current().state != TaskFinished
    requires s.Current().slotOwner == s.Current().id
    requires CheckT2Task(Ticked(s).Current())
    ensures EventOf(s) == NoSlot || EventOf(s) == Preempted(s.Current().pid)
  {
    TickedKeeps(s);
    var s1 := Ticked(s);
    AfterT2Keeps(s1);
    ActiveIsBeforeTheEnd(s1);
    var s2 := AfterT2(s1);
    StretchKeepsT1BelowT2(s1.Current().planned);
    Ladder(s1.Current().planned);
    assert s1.Current().planned >= 0;
    assert SlotIndex(s2.tasks, s2.cur) == s2.cur;
    StretchedInPlace(s1);
    assert CheckT1(s2);
  }

  lemma StretchedInPlace(s: State)
    requires InvMidTick(s)
    ensures AfterT2(s).cur == s.cur && |AfterT2(s).tasks| == |s.tasks|
    ensures AfterT2(s).Current().retiredSlot == s.Current().retiredSlot
    ensures var planned := AfterT2(s).Current().planned;
            planned == s.Current().planned || planned == Rescaled(s.Current().planned, T2)
  {
    ActiveIsBeforeTheEnd(s);
  }

  // ----- what the books are for -----

  predicate CompletionInRange(s: State, pid: int)
    requires 0 <= pid < |s.processes| && s.processes[pid].planLength > 0
  {
    0 <= Completion(s.processes[pid]) <= 100
  }

  /** No process ever retired a negative amount. */
  lemma RetiredIsNonNegative(s: State, pid: int)
    requires Balanced(s) && Lengths(s.tasks) && 0 <= pid < s.numProcesses
    ensures s.processes[pid].retired >= 0
  {
    var scope := OfProcess(pid);
    assert ValidScope(s, scope);
    TotalNonNegative(Actual(scope), s.tasks[..s.cur]);
    TotalNonNegative(OnSlot(scope), s.tasks[s.cur..]);
  }

  lemma CompletionOf(s: State, pid: int)
    requires Balanced(s) && Lengths(s.tasks) && 0 <= pid < s.numProcesses && s.processes[pid].planLength > 0
    ensures CompletionInRange(s, pid)
  {
    RetiredIsNonNegative(s, pid);
    CompletionIsAPercentage(s.processes[pid]);
  }

  /** A tick's booking and a signal leave the planned length of every process alone. */
  lemma PlansStay(s: State, kind: SignalKind, pid: int)
    requires Active(s) && 0 <= pid < |s.processes|
    ensures Ticked(s).numProcesses == s.numProcesses && 0 <= Ticked(s).curProcess < |s.processes|
    ensures Ticked(s).processes[pid].planLength == s.processes[pid].planLength
    ensures var t := RaiseSignal(Ticked(s), kind).processes;
            |t| == |s.processes| && t[pid].planLength == s.processes[pid].planLength &&
            t[pid].retired == Ticked(s).processes[pid].retired
  {
    ActiveIsBeforeTheEnd(s);
  }

  /**
   * The completion of a process with a plan is a percentage, so the assertion of process.c:55 holds
   * wherever a tick evaluates it: in the T2 check behind the tick's booking and behind any signal, and
   * between ticks as well (threshold_checking.c:94-132; process.c:51-58).
   */
  lemma CompletionHolds(s: State, kind: SignalKind, pid: int)
    requires Inv(s) && Active(s) && 0 <= pid < s.numProcesses && s.processes[pid].planLength > 0
    ensures Ticked(s).processes[pid].planLength > 0 && 0 <= Ticked(s).curProcess < |s.processes|
    ensures |RaiseSignal(Ticked(s), kind).processes| == |s.processes|
    ensures RaiseSignal(Ticked(s), kind).processes[pid].planLength > 0
    ensures CompletionInRange(s, pid) && CompletionInRange(Ticked(s), pid)
    ensures CompletionInRange(RaiseSignal(Ticked(s), kind), pid)
  {
    CompletionOf(s, pid);
    TickedKeeps(s);
    PlansStay(s, kind, pid);
    CompletionOf(Ticked(s), pid);
  }
}
