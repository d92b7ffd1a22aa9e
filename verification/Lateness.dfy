/** What the lateness of the plan and of its processes means. */
module Lateness {
  import opened Config
  import opened Entities
  import opened Totals
  import opened Model
  import opened Layout
  import opened Accounting
  import opened Progress
  import opened Invariant
  import opened Stress

  function LatenessOf(s: State, scope: Scope): int
    requires Shaped(s) && ValidScope(s, scope)
  {
    match scope
    case WholePlan => s.lateness
    case OfProcess(p) => s.processes[p].lateness
  }

  /** How much longer the tasks in front of the cursor took than they were planned when they were left. */
  function OverrunBefore(s: State, scope: Scope): int
    requires 0 <= s.cur <= |s.tasks|
  {
    Total(Overrun(scope), s.tasks[..s.cur])
  }

  function FreeBefore(s: State): int
    requires 0 <= s.cur <= |s.tasks|
  {
    Total(FreeCount, s.tasks[..s.cur])
  }

  /** Two lists whose first `n` entries agree on what is late about them. */
  predicate SameOverruns(a: seq<Task>, b: seq<Task>, n: int)
    requires 0 <= n <= |a| && n <= |b|
  {
    forall i :: 0 <= i < n ==>
      a[i].id == b[i].id && a[i].pid == b[i].pid && a[i].actual == b[i].actual && a[i].planned == b[i].planned
  }

  lemma SameOverrunTotals(a: seq<Task>, b: seq<Task>, n: int, scope: Scope)
    requires 0 <= n <= |a| && n <= |b| && SameOverruns(a, b, n)
    ensures Total(Overrun(scope), a[..n]) == Total(Overrun(scope), b[..n])
    ensures Total(FreeCount, a[..n]) == Total(FreeCount, b[..n])
  {
    TotalSame(Overrun(scope), a[..n], b[..n]);
    TotalSame(FreeCount, a[..n], b[..n]);
  }

  /** A step that leaves the cursor, the latenesses and everything in front of the cursor alone. */
  predicate NotLater(s: State, t: State) {
    && Shaped(s) && Shaped(t)
    && t.cur == s.cur && |t.tasks| == |s.tasks| && t.lateness == s.lateness && t.numProcesses == s.numProcesses
    && SameOverruns(s.tasks, t.tasks, s.cur)
    && forall p :: 0 <= p < |s.processes| ==> t.processes[p].lateness == s.processes[p].lateness
  }

  lemma NotLaterMeans(s: State, t: State, scope: Scope)
    requires NotLater(s, t) && ValidScope(s, scope)
    ensures LatenessOf(t, scope) == LatenessOf(s, scope)
    ensures OverrunBefore(t, scope) == OverrunBefore(s, scope) && FreeBefore(t) == FreeBefore(s)
  {
    SameOverrunTotals(s.tasks, t.tasks, s.cur, scope);
  }

  lemma RetireKeepsOverruns(ts: seq<Task>, cur: int, n: int)
    requires 0 <= cur < |ts|
    ensures SameOverruns(ts, RetireInTasks(ts, cur, n), |ts|)
  {
  }

  lemma RetireNotLater(s: State, n: int)
    requires Shaped(s)
    ensures NotLater(s, Retire(s, n))
    ensures SameOverruns(s.tasks, Retire(s, n).tasks, |s.tasks|)
  {
    RetireKeepsShape(s, n);
    RetireKeepsOverruns(s.tasks, s.cur, n);
  }

  /** The cursor moved over one entry. */
  lemma AdvanceLateness(s: State, scope: Scope)
    requires Shaped(s) && s.cur + 1 < |s.tasks| && ValidScope(s, scope)
    ensures var t := Advance(s);
            && t.numProcesses == s.numProcesses && t.tasks[0].planned == s.tasks[0].planned
            && LatenessOf(t, scope) == LatenessOf(s, scope)
            && OverrunBefore(t, scope) == OverrunBefore(s, scope) + Weight(Overrun(scope), s.Current())
            && FreeBefore(t) == FreeBefore(s) + Weight(FreeCount, s.Current())
  {
    var t := Advance(s);
    TotalStep(Overrun(scope), s.tasks, s.cur);
    TotalStep(FreeCount, s.tasks, s.cur);
    SameOverrunTotals(s.tasks, t.tasks, t.cur, scope);
  }

  /** What is charged for a free slot: the length of the list's first entry, off the plan's lateness only. */
  lemma ChargeLateness(s: State, scope: Scope)
    requires Shaped(s) && ValidScope(s, scope) && s.tasks[0].planned >= 0
    ensures var t := UpdateRetired(s, -s.tasks[0].planned);
            && Shaped(t) && t.numProcesses == s.numProcesses && t.cur == s.cur && |t.tasks| == |s.tasks|
            && t.tasks[0].planned == s.tasks[0].planned
            && OverrunBefore(t, scope) == OverrunBefore(s, scope) && FreeBefore(t) == FreeBefore(s)
            && LatenessOf(t, scope) == LatenessOf(s, scope) - if scope.WholePlan? then s.tasks[0].planned else 0
  {
    RetireShaped(s, -s.tasks[0].planned);
    if s.tasks[0].planned == 0 {
      RetireNotLater(s, 0);
      NotLaterMeans(s, Retire(s, 0), scope);
    }
  }

  /** From `s` to `t` a free slot under the cursor was passed, if there was one. */
  predicate Skipped(s: State, t: State, scope: Scope) {
    && Shaped(s) && Shaped(t) && t.numProcesses == s.numProcesses && ValidScope(s, scope)
    && t.tasks[0].planned == s.tasks[0].planned && t.signals == s.signals
    && t.cur == (if s.Current().Free() then s.cur + 1 else s.cur)
    && OverrunBefore(t, scope) == OverrunBefore(s, scope)
    && FreeBefore(t) == FreeBefore(s) + (if s.Current().Free() then 1 else 0)
    && LatenessOf(t, scope) ==
       LatenessOf(s, scope) - if scope.WholePlan? && s.Current().Free() then s.tasks[0].planned else 0
  }

  lemma FreeSlotLateness(s: State, scope: Scope)
    requires Shaped(s) && s.tasks[0].planned >= 0 && ValidScope(s, scope) && s.Current().Free()
    ensures Skipped(s, SkipFreeSlot(s), scope)
  {
    AdvanceLateness(s, scope);
    ChargeLateness(Advance(s), scope);
  }

  lemma SkipLateness(s: State, scope: Scope)
    requires Shaped(s) && s.tasks[0].planned >= 0 && ValidScope(s, scope)
    ensures Skipped(s, SkipIfFree(s), scope)
  {
    if s.Current().Free() {
      FreeSlotLateness(s, scope);
    }
  }

  // ----- the lateness law, step by step -----

  /** What the lateness is counted from: a signal clears the plan's and the current process's. */
  function Base(s: State, scope: Scope, signaled: bool): int
    requires Shaped(s) && ValidScope(s, scope)
  {
    if signaled && (scope.WholePlan? || scope.pid == s.curProcess) then 0 else LatenessOf(s, scope)
  }

  /** From `s` to `t` the lateness grew by the overruns of the tasks left behind, less what free slots took off. */
  ghost predicate Accounted(s: State, t: State, scope: Scope, signaled: bool) {
    && Shaped(s) && Shaped(t) && t.numProcesses == s.numProcesses && ValidScope(s, scope)
    && FreeBefore(s) <= FreeBefore(t) <= FreeBefore(s) + 1
    && (s.cur > 0 ==> t.cur > 0 && t.tasks[0].planned == s.tasks[0].planned)
    && LatenessOf(t, scope) ==
       Base(s, scope, signaled) + OverrunBefore(t, scope) - OverrunBefore(s, scope)
       - if scope.WholePlan? && FreeBefore(t) > FreeBefore(s) then t.tasks[0].planned else 0
  }

  /** A signal clears latenesses and rescales nothing in front of the cursor. */
  lemma SignalLateness(s: State, kind: SignalKind, scope: Scope)
    requires Active(s) && ValidScope(s, scope)
    ensures 0 <= s.curProcess < |s.processes|
    ensures var t := RaiseSignal(s, kind);
            && Active(t) && t.cur == s.cur && t.numProcesses == s.numProcesses
            && SameOverruns(s.tasks, t.tasks, s.cur)
            && OverrunBefore(t, scope) == OverrunBefore(s, scope) && FreeBefore(t) == FreeBefore(s)
            && LatenessOf(t, scope) == Base(s, scope, true)
  {
    ActiveIsBeforeTheEnd(s);
    RaiseSignalShaped(s, kind);
    SameOverrunTotals(s.tasks, RaiseSignal(s, kind).tasks, s.cur, scope);
  }

  lemma SettleByLateness(s: State, surplus: int, scope: Scope)
    requires Active(s) && ValidScope(s, scope)
    ensures var t := SettleBy(s, surplus);
            && t.tasks == s.tasks && t.cur == s.cur && t.numProcesses == s.numProcesses && Shaped(t)
            && LatenessOf(t, scope) == LatenessOf(s, scope) + Weight(Overrun(scope), s.Current())
  {
    ActiveIsBeforeTheEnd(s);
    SettleByActive(s, surplus);
  }

  /** The overrun is counted as the task is planned after a possible rescheduling. */
  lemma SettleLateness(s: State, scope: Scope)
    requires Active(s) && ValidScope(s, scope)
    ensures var t := Settle(s);
            && Active(t) && t.cur == s.cur && t.numProcesses == s.numProcesses
            && SameOverruns(s.tasks, t.tasks, s.cur)
            && OverrunBefore(t, scope) == OverrunBefore(s, scope) && FreeBefore(t) == FreeBefore(s)
            && LatenessOf(t, scope) == Base(s, scope, TM2Due(s)) + Weight(Overrun(scope), t.Current())
  {
    ActiveIsBeforeTheEnd(s);
    SettleActive(s);
    RaiseSignalShaped(s, TM2);
    var s1 := if TM2Due(s) then RaiseSignal(s, TM2) else s;
    if TM2Due(s) { SignalLateness(s, TM2, scope); }
    SettleByLateness(s1, s.Current().retiredSlot - s.Current().actual, scope);
  }

  lemma LeftLateness(s: State, scope: Scope)
    requires Active(s) && ValidScope(s, scope)
    ensures Left(s).numProcesses == s.numProcesses && Left(s).cur == s.cur + 1 && Shaped(Left(s))
    ensures s.cur > 0 ==> Left(s).tasks[0].planned == s.tasks[0].planned
    ensures FreeBefore(Left(s)) == FreeBefore(s)
    ensures LatenessOf(Left(s), scope) - OverrunBefore(Left(s), scope) ==
            Base(s, scope, TM2Due(s)) - OverrunBefore(s, scope)
  {
    SettleLateness(s, scope);
    var s1 := Settle(s);
    ActiveIsBeforeTheEnd(s1);
    var s2 := s1.(tasksFinished := s1.tasksFinished + 1);
    AdvanceLateness(s2, scope);
  }

  lemma FinishAccounted(s: State, scope: Scope)
    requires InvMidTick(s) && s.Current().state == TaskFinished && ValidScope(s, scope)
    ensures Accounted(s, FinishTask(s), scope, TM2Due(s))
  {
    LeftLateness(s, scope);
    LeftProgress(s);
    FinishIsLeaving(s);
    SkipLateness(Left(s), scope);
  }

  lemma ForceFinishNotLater(s: State)
    requires Shaped(s) && s.Current().retiredTask <= s.Current().actual
    ensures NotLater(s, ForceFinish(s))
  {
    var n := s.Current().actual - s.Current().retiredTask;
    RetireNotLater(s, n);
    FinishedIsNotLater(s, Retire(s, n), ForceFinish(s));
  }

  lemma FinishedIsNotLater(s: State, t: State, u: State)
    requires NotLater(s, t) && u == t.(status := u.status)
    ensures NotLater(s, u)
  {
  }

  lemma MoveStackNotLater(s: State)
    requires Shaped(s) && InsertionSlot(s.tasks, s.cur, s.Current().pid) != -2
    ensures NotLater(s, MoveStack(s))
  {
    StackFitsSlot(s.tasks, s.cur);
    var slot, k := InsertionSlot(s.tasks, s.cur, s.Current().pid), StackSize(s.tasks, s.cur);
    RotateShaped(s, k, slot);
    EnterShaped(s.(tasks := Rotate(s.tasks, s.cur, k, slot)));
  }

  lemma PreemptNotLater(s: State)
    requires Shaped(s) && s.Current().retiredTask <= s.Current().actual
    ensures NotLater(s, Preempt(s))
  {
    CountPreemptionShaped(s);
    var s1 := CountPreemption(s);
    if InsertionSlot(s1.tasks, s1.cur, s1.Current().pid) == -2 {
      ForceFinishNotLater(s1);
    } else {
      MoveStackNotLater(s1);
    }
  }

  lemma PreemptLateness(s: State, scope: Scope)
    requires Shaped(s) && ValidScope(s, scope)
    requires s.Current().retiredTask <= s.Current().actual
    requires Shaped(Preempt(s)) && Preempt(s).tasks[0].planned >= 0
    ensures Accounted(s, SkipIfFree(Preempt(s)), scope, false)
  {
    PreemptNotLater(s);
    NotLaterMeans(s, Preempt(s), scope);
    SkipLateness(Preempt(s), scope);
  }

  /** The rest of a tick behind a step that is not late itself. */
  lemma AccountedAfter(s: State, s1: State, t: State, scope: Scope, before: bool, after: bool)
    requires Shaped(s) && Shaped(s1) && ValidScope(s, scope)
    requires s1.cur == s.cur && s1.numProcesses == s.numProcesses && s1.curProcess == s.curProcess
    requires |s1.tasks| == |s.tasks| && SameOverruns(s.tasks, s1.tasks, s.cur)
    requires LatenessOf(s1, scope) == Base(s, scope, before)
    requires Accounted(s1, t, scope, after) && !(before && after)
    ensures Accounted(s, t, scope, before || after)
  {
    SameOverrunTotals(s.tasks, s1.tasks, s.cur, scope);
  }

  lemma StaysAccounted(s: State, t: State, scope: Scope)
    requires Shaped(s) && ValidScope(s, scope) && t == s.(stress := t.stress)
    ensures Accounted(s, t, scope, false)
  {
  }

  lemma LateTaskAccounted(s: State, scope: Scope)
    requires InvMidTick(s) && s.Current().state != TaskFinished && ValidScope(s, scope)
    requires Shaped(Preempt(s))
    ensures Accounted(s, SkipIfFree(Preempt(s)), scope, false)
  {
    assert JustTicked(s.Current());
    PreemptProgress(s);
    PreemptLateness(s, scope);
  }

  lemma AfterT2Lateness(s: State, scope: Scope)
    requires Active(s) && ValidScope(s, scope)
    ensures var t := AfterT2(s);
            && Active(t) && t.cur == s.cur && t.numProcesses == s.numProcesses && t.curProcess == s.curProcess
            && |t.tasks| == |s.tasks| && SameOverruns(s.tasks, t.tasks, s.cur)
            && LatenessOf(t, scope) == Base(s, scope, T2Due(s))
  {
    ActiveIsBeforeTheEnd(s);
    if T2Due(s) { SignalLateness(s, T2, scope); }
  }

  lemma ContinueAccounted(s: State, scope: Scope)
    requires InvMidTick(s) && s.Current().state != TaskFinished && ValidScope(s, scope)
    ensures Accounted(s, ContinueTask(s), scope, T2Due(s))
  {
    AfterT2Keeps(s);
    var s1 := AfterT2(s);
    AfterT2Lateness(s, scope);
    if CheckT1(s1) {
      PreemptShaped(s1);
      LateTaskAccounted(s1, scope);
    } else {
      StaysAccounted(s1, ContinueTask(s), scope);
    }
    AccountedAfter(s, s1, ContinueTask(s), scope, T2Due(s), false);
  }

  lemma ClockIsNotLate(s: State, u: State, t: State, scope: Scope, signaled: bool)
    requires Accounted(s, u, scope, signaled) && t == u.(ticks := t.ticks)
    ensures Accounted(s, t, scope, signaled)
  {
  }

  /** The law for one tick, whatever happens in it. */
  lemma TickAccounted(s: State, scope: Scope)
    requires Inv(s) && ValidScope(s, scope)
    ensures s.Current().End() || Active(s)
    ensures |s.signals| <= |Tick(s).signals|
    ensures Accounted(s, Tick(s), scope, |Tick(s).signals| > |s.signals|)
  {
    SettledCases(s);
    if s.Current().End() {
      StaysAccounted(s, s, scope);
    } else {
      TickedKeeps(s);
      TickLogs(s);
      var s1, signaled := Ticked(s), |Tick(s).signals| > |s.signals|;
      if s1.Current().state == TaskFinished {
        FinishAccounted(s1, scope);
        ClockIsNotLate(s1, FinishTask(s1), Tick(s), scope, signaled);
      } else {
        ContinueAccounted(s1, scope);
        ClockIsNotLate(s1, ContinueTask(s1), Tick(s), scope, signaled);
      }
      RetireNotLater(s, INS_PER_TICK);
      NotLaterMeans(s, s1, scope);
      AccountedAfter(s, s1, Tick(s), scope, false, signaled);
    }
  }

  // ----- the law over a run -----

  /** What the free slots in front of the cursor took off. */
  function SlotCharge(s: State, scope: Scope): int
    requires 0 <= s.cur <= |s.tasks| && |s.tasks| > 0
  {
    if scope.WholePlan? then FreeBefore(s) * s.tasks[0].planned else 0
  }

  /** The law since the last time that this scope's lateness was cleared. */
  predicate Lawful(x: State, scope: Scope, start: int) {
    && Shaped(x) && ValidScope(x, scope)
    && LatenessOf(x, scope) == start + OverrunBefore(x, scope) - SlotCharge(x, scope)
  }

  lemma NextFree(n: int, m: int, d: int)
    requires n <= m <= n + 1
    ensures m * d == n * d + if m > n then d else 0
  {
    if m == n + 1 { assert (n + 1) * d == n * d + d; }
  }

  lemma StepIsLawful(x: State, t: State, scope: Scope, signaled: bool, start: int)
    requires Accounted(x, t, scope, signaled)
    requires Base(x, scope, signaled) == start + OverrunBefore(x, scope) - SlotCharge(x, scope)
    ensures Lawful(t, scope, start)
  {
    if x.cur == 0 {
      assert x.tasks[..0] == [] && FreeBefore(x) == 0;
    }
    NextFree(FreeBefore(x), FreeBefore(t), t.tasks[0].planned);
  }

  /** A logged signal clears the plan's lateness and that of its own process (plan.c:157-160). */
  predicate Clears(sig: Signal, scope: Scope) {
    scope.WholePlan? || sig.processId == scope.pid
  }

  /** One of the signals behind the first `from` of the log cleared this scope's lateness. */
  ghost predicate Cleared(log: seq<Signal>, from: nat, scope: Scope) {
    exists i :: from <= i < |log| && Clears(log[i], scope)
  }

  /** The tick of `x` raises a signal that clears this scope's lateness. */
  ghost predicate ClearsNow(x: State, scope: Scope) {
    |Next(x).signals| > |x.signals| && (scope.WholePlan? || x.curProcess == scope.pid)
  }

  lemma NextLog(x: State, scope: Scope)
    requires Inv(x) && ValidScope(x, scope)
    ensures ValidScope(Next(x), scope)
    ensures |x.signals| <= |Next(x).signals| <= |x.signals| + 1 && x.signals == Next(x).signals[..|x.signals|]
    ensures ClearsNow(x, scope) <==> |Next(x).signals| > |x.signals| && Clears(Next(x).signals[|x.signals|], scope)
  {
    TickLogs(x);
    TickKeeps(x);
    TickAccounted(x, scope);
  }

  lemma NextIsLawful(x: State, scope: Scope, start: int)
    requires Inv(x) && ValidScope(x, scope)
    requires ClearsNow(x, scope) ==> 0 == start + OverrunBefore(x, scope) - SlotCharge(x, scope)
    requires !ClearsNow(x, scope) ==> Lawful(x, scope, start)
    ensures Lawful(Next(x), scope, start)
  {
    TickKeeps(x);
    TickAccounted(x, scope);
    StepIsLawful(x, Tick(x), scope, |Tick(x).signals| > |x.signals|, start);
  }

  /** What is kept over a run from `log` on: the law, until this scope's lateness is cleared. */
  ghost predicate LawfulSince(x: State, log: seq<Signal>, scope: Scope, start: int) {
    && Inv(x) && ValidScope(x, scope)
    && |log| <= |x.signals| && x.signals[..|log|] == log
    && (!Cleared(x.signals, |log|, scope) ==> Lawful(x, scope, start))
  }

  lemma ClearedBefore(a: seq<Signal>, b: seq<Signal>, from: nat, scope: Scope)
    requires |a| <= |b| && a == b[..|a|] && Cleared(a, from, scope)
    ensures Cleared(b, from, scope)
  {
    var i :| from <= i < |a| && Clears(a[i], scope);
    assert b[i] == a[i];
  }

  lemma ClearedAt(log: seq<Signal>, from: nat, i: nat, scope: Scope)
    requires from <= i < |log| && Clears(log[i], scope)
    ensures Cleared(log, from, scope)
  {
  }

  lemma NextIsLawfulSince(x: State, log: seq<Signal>, scope: Scope, start: int)
    requires LawfulSince(x, log, scope, start)
    ensures LawfulSince(Next(x), log, scope, start)
  {
    NextLog(x, scope);
    var y := Next(x);
    assert y.signals[..|log|] == x.signals[..|log|];
    if Cleared(x.signals, |log|, scope) {
      ClearedBefore(x.signals, y.signals, |log|, scope);
    } else if ClearsNow(x, scope) {
      ClearedAt(y.signals, |log|, |x.signals|, scope);
    } else {
      NextIsLawful(x, scope, start);
    }
  }

  /**
   * The lateness law, from any state on and for any number of ticks, for the plan and for each process:
   * as long as no signal clears it, lateness grows by exactly what the tasks left behind took beyond
   * their plans. Only signals of the process itself clear a process's lateness. The plan's falls by the
   * length of the list's first entry for every free slot that is passed (pb-scheduler.c:75-77, 158-173;
   * plan.c:84-93, 157-160).
   */
  lemma LatenessIsOverrun(s: State, n: nat, scope: Scope)
    requires Inv(s) && ValidScope(s, scope)
    ensures ValidScope(Run(s, n), scope) && |s.signals| <= |Run(s, n).signals|
    ensures !Cleared(Run(s, n).signals, |s.signals|, scope) ==>
              LatenessOf(Run(s, n), scope) - LatenessOf(s, scope) ==
              (OverrunBefore(Run(s, n), scope) - OverrunBefore(s, scope))
              - (SlotCharge(Run(s, n), scope) - SlotCharge(s, scope))
  {
    var start := LatenessOf(s, scope) - OverrunBefore(s, scope) + SlotCharge(s, scope);
    var P := (x: State, k: nat) => LawfulSince(x, s.signals, scope, start);
    forall x, k: nat | Inv(x) && P(x, k) ensures P(Next(x), k + 1) {
      NextIsLawfulSince(x, s.signals, scope, start);
    }
    assert s.signals[..|s.signals|] == s.signals;
    RunInduction(s, n, P);
  }

  /**
   * After a signal that clears it, and until the next one, lateness is what the tasks left behind since
   * then took beyond their plans, the task of a TM2 signal included, less the charges since then.
   */
  lemma LatenessSinceSignal(s: State, n: nat, scope: Scope)
    requires Inv(s) && ValidScope(s, scope) && ClearsNow(s, scope)
    ensures Inv(Next(s)) && ValidScope(Run(Next(s), n), scope)
    ensures !Cleared(Run(Next(s), n).signals, |Next(s).signals|, scope) ==>
              LatenessOf(Run(Next(s), n), scope) ==
              (OverrunBefore(Run(Next(s), n), scope) - OverrunBefore(s, scope))
              - (SlotCharge(Run(Next(s), n), scope) - SlotCharge(s, scope))
  {
    NextLog(s, scope);
    NextIsLawful(s, scope, SlotCharge(s, scope) - OverrunBefore(s, scope));
    LatenessIsOverrun(Next(s), n, scope);
  }
}
