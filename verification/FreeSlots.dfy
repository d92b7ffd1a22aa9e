/** The assertion of handle_free_slot, that the plan's lateness falls (pb-scheduler.c:166-173). */
module FreeSlots {
  import opened Config
  import opened Entities
  import opened Thresholds
  import opened Totals
  import opened Model
  import opened Layout
  import opened Accounting
  import opened Progress
  import opened Iteration
  import opened Invariant
  import opened LateTask
  import opened Lateness

  /** For one call: it holds exactly if the first entry of the list has a length. */
  lemma SlotAssertionHoldsIff(s: State)
    requires Shaped(s) && Lengths(s.tasks) && s.Current().Free()
    ensures SkipFreeSlot(s).lateness < s.lateness <==> s.tasks[0].planned > 0
  {
  }

  /** The state in which a tick looks whether it has to pass a free slot. */
  function SkipPoint(x: State): State
    requires Active(x)
  {
    var s1 := Ticked(x);
    if s1.Current().state == TaskFinished then Left(s1) else
    AfterT2Active(s1);
    if CheckT1(AfterT2(s1)) then Preempt(AfterT2(s1)) else AfterT2(s1)
  }

  lemma SkipPointShaped(x: State)
    requires Inv(x) && Active(x)
    ensures Shaped(SkipPoint(x)) && Lengths(SkipPoint(x).tasks)
  {
    TickedKeeps(x);
    var s1 := Ticked(x);
    if s1.Current().state == TaskFinished {
      LeftOrdered(s1);
      LeftProgress(s1);
    } else {
      AfterT2Keeps(s1);
      PreemptShaped(AfterT2(s1));
      assert JustTicked(AfterT2(s1).Current());
      PreemptProgress(AfterT2(s1));
    }
  }

  /** The tick passes the free slot that it finds there; if there is none it ends there. */
  lemma TickFromSkipPoint(x: State)
    requires Inv(x) && Active(x) && Shaped(SkipPoint(x))
    ensures var p := SkipPoint(x);
            var t := if p.Current().Free() then SkipFreeSlot(p) else p;
            Tick(x) == t.(ticks := Tick(x).ticks, stress := Tick(x).stress)
  {
    TickedKeeps(x);
    AfterT2Active(Ticked(x));
    ActiveIsBeforeTheEnd(AfterT2(Ticked(x)));
    if Ticked(x).Current().state == TaskFinished {
      FinishIsLeaving(Ticked(x));
    }
  }

  /** The assertion, for the tick of `x`. */
  ghost predicate SlotAssertion(x: State) {
    Active(x) && Shaped(SkipPoint(x)) &&
    (SkipPoint(x).Current().Free() ==> SkipFreeSlot(SkipPoint(x)).lateness < SkipPoint(x).lateness)
  }

  // ----- runs of plans whose entries all have a length -----

  predicate AllPositive(ts: seq<Task>) {
    forall i :: 0 <= i < |ts| - 1 ==> ts[i].planned > 0
  }

  /** On the slot of a task that runs in another slot something was booked: its own slot was used up. */
  predicate GuestsRan(ts: seq<Task>) {
    forall i :: 0 <= i < |ts| - 1 && ts[i].Real() && ts[i].slotOwner != ts[i].id ==> ts[i].retiredSlot > 0
  }

  /** While the first entry of the list is still to be determined, nothing is late and no plan was shrunk. */
  predicate Unmoved(s: State) {
    && s.cur == 0 && s.lateness == 0 && s.planned >= 0
    && AllPositive(s.tasks) && GuestsRan(s.tasks)
  }

  /** What guarantees a positive charge for every free slot to come. */
  predicate Chargeable(s: State) {
    |s.tasks| > 0 && if s.cur > 0 then s.tasks[0].planned > 0 else Unmoved(s)
  }

  lemma TickedUnmoved(x: State)
    requires Inv(x) && Active(x) && Unmoved(x)
    ensures Unmoved(Ticked(x)) && Ticked(x).Current().retiredSlot > 0
  {
    ActiveIsBeforeTheEnd(x);
    RetireTouches(x, INS_PER_TICK);
    assert x.Current().retiredSlot >= 0;
  }

  /** TM2 never fires on a short task there, so the first entry keeps a length. */
  lemma LeftFirstIsPositive(s: State)
    requires InvMidTick(s) && Unmoved(s) && s.Current().retiredSlot > 0
    ensures Left(s).cur == 1 && Left(s).tasks[0].planned > 0
  {
    ActiveIsBeforeTheEnd(s);
    SettleActive(s);
    var planned := s.Current().planned;
    assert planned > 0;
    NodeLimits(s.numProcesses, s.planned, s.stress);
    TaskLimits(planned);
    RescaledBrackets(planned);
    assert TM2Due(s) ==> planned > 1;
    assert Settle(s).tasks[0].planned > 0;
  }

  lemma AfterT2Unmoved(s: State)
    requires InvMidTick(s) && Unmoved(s)
    ensures Unmoved(AfterT2(s))
  {
    ActiveIsBeforeTheEnd(s);
    if T2Due(s) {
      forall i | 0 <= i < |s.tasks| - 1 ensures Rescaled(s.tasks[i].planned, T2) > 0 {
        RescaledBrackets(s.tasks[i].planned);
      }
    }
  }

  /** T1 fires only when something was booked on the slot, so all of the stack that moves has used its own slots. */
  lemma StackRan(s: State, m: int)
    requires LaidOut(s) && Active(s) && Unmoved(s) && CheckT1(s)
    requires s.cur <= m < s.cur + StackSize(s.tasks, s.cur) && m < |s.tasks| - 1
    ensures s.tasks[m].Real() ==> s.tasks[m].retiredSlot > 0
  {
    ActiveIsBeforeTheEnd(s);
    SlotLookupSucceeds(s);
    var o := SlotIndex(s.tasks, s.cur);
    Ladder(s.tasks[o].planned);
    assert s.tasks[o].retiredSlot > 0;
    if s.tasks[m].Real() && s.tasks[m].slotOwner == s.tasks[m].id {
      assert s.tasks[m].id == s.tasks[o].id;
    }
  }

  lemma CountedUnmoved(s: State)
    requires LaidOut(s) && Active(s) && Unmoved(s) && CheckT1(s)
    ensures var t := CountPreemption(s);
            LaidOut(t) && Active(t) && Unmoved(t) && CheckT1(t)
  {
    CountPreemptionLaidOut(s);
    SameLookup(s.tasks, CountPreemption(s).tasks, s.cur);
  }

  lemma SameLookup(a: seq<Task>, b: seq<Task>, cur: int)
    requires SameLayout(a, b) && 0 <= cur < |a|
    ensures SlotIndex(a, cur) == SlotIndex(b, cur)
  {
    var i, j := IndexOf(a, a[cur].slotOwner), IndexOf(b, b[cur].slotOwner);
    if i != -1 { assert b[i].id == a[i].id; }
    if j != -1 { assert a[j].id == b[j].id; }
  }

  lemma RotatedUnmoved(s: State)
    requires LaidOut(s) && Active(s) && Unmoved(s) && CheckT1(s)
    requires InsertionSlot(s.tasks, s.cur, s.Current().pid) != -2
    ensures Unmoved(MoveStack(s))
  {
    StackFitsSlot(s.tasks, s.cur);
    var slot, k := InsertionSlot(s.tasks, s.cur, s.Current().pid), StackSize(s.tasks, s.cur);
    var r := Rotate(s.tasks, s.cur, k, slot);
    forall i | 0 <= i < |r| - 1
      ensures r[i].planned > 0 && (r[i].Real() && r[i].slotOwner != r[i].id ==> r[i].retiredSlot > 0)
    {
      RotateAt(s.tasks, s.cur, k, slot, i);
      var m := RotateSource(s.cur, k, slot, i);
      if s.cur <= m < s.cur + k { StackRan(s, m); }
    }
  }

  lemma ForcedUnmoved(s: State)
    requires Shaped(s) && Unmoved(s) && s.Current().retiredTask <= s.Current().actual
    ensures Unmoved(ForceFinish(s))
  {
  }

  lemma PreemptedUnmoved(s: State)
    requires LaidOut(s) && Active(s) && Unmoved(s) && CheckT1(s)
    requires s.Current().retiredTask <= s.Current().actual
    ensures Unmoved(Preempt(s))
  {
    CountedUnmoved(s);
    var s1 := CountPreemption(s);
    if InsertionSlot(s1.tasks, s1.cur, s1.Current().pid) == -2 {
      ForcedUnmoved(s1);
    } else {
      RotatedUnmoved(s1);
    }
  }

  /** Behind the first entry nothing changes its length any more. */
  lemma FirstEntryStays(x: State)
    requires Inv(x) && Active(x) && x.cur > 0 && Shaped(SkipPoint(x))
    ensures SkipPoint(x).cur > 0 && SkipPoint(x).tasks[0].planned == x.tasks[0].planned
  {
    TickedKeeps(x);
    RetireNotLater(x, INS_PER_TICK);
    var s1 := Ticked(x);
    if s1.Current().state == TaskFinished {
      LeftLateness(s1, WholePlan);
    } else {
      AfterT2Keeps(s1);
      AfterT2Lateness(s1, WholePlan);
      assert JustTicked(AfterT2(s1).Current());
      PreemptNotLater(AfterT2(s1));
    }
  }

  /** Up to the point where a tick looks for a free slot, the charge stays positive. */
  lemma SkipPointChargeable(x: State)
    requires Inv(x) && Active(x) && Chargeable(x)
    ensures Shaped(SkipPoint(x)) && Lengths(SkipPoint(x).tasks) && Chargeable(SkipPoint(x))
  {
    SkipPointShaped(x);
    if x.cur > 0 {
      FirstEntryStays(x);
    } else {
      FirstEntryIsChosen(x);
    }
  }

  lemma FirstEntryIsChosen(x: State)
    requires Inv(x) && Active(x) && Unmoved(x) && Shaped(SkipPoint(x))
    ensures Chargeable(SkipPoint(x))
  {
    TickedKeeps(x);
    TickedUnmoved(x);
    var s1 := Ticked(x);
    if s1.Current().state == TaskFinished {
      LeftFirstIsPositive(s1);
    } else {
      AfterT2Keeps(s1);
      AfterT2Unmoved(s1);
      assert JustTicked(AfterT2(s1).Current());
      if CheckT1(AfterT2(s1)) { PreemptedUnmoved(AfterT2(s1)); }
    }
  }

  /** With a positive charge a free slot that is passed lowers the lateness, and the charge stays positive. */
  lemma ChargedSkip(p: State)
    requires Shaped(p) && p.tasks[0].planned > 0 && p.Current().Free()
    ensures var t := SkipFreeSlot(p);
            t.lateness < p.lateness && t.cur > 0 && |t.tasks| > 0 && t.tasks[0].planned > 0
  {
    assert p.cur != |p.tasks| - 1;
    FreeSlotLateness(p, WholePlan);
  }

  lemma TickIsChargeable(x: State)
    requires Inv(x) && Active(x) && Chargeable(x)
    ensures SlotAssertion(x) && Chargeable(Tick(x))
  {
    SkipPointChargeable(x);
    TickFromSkipPoint(x);
    if SkipPoint(x).Current().Free() {
      assert SkipPoint(x).cur != |SkipPoint(x).tasks| - 1;
      ChargedSkip(SkipPoint(x));
    }
  }

  lemma NextIsChargeable(x: State)
    requires Inv(x) && Chargeable(x)
    ensures Chargeable(Next(x))
    ensures x.Current().End() || SlotAssertion(x)
  {
    TickKeeps(x);
    if !x.Current().End() { TickIsChargeable(x); }
  }

  /**
   * In a plan whose entries all have a length the assertion never fails, whatever is preempted, signaled
   * or rescheduled.
   */
  lemma SlotAssertionNeverFails(s: State, n: nat)
    requires Fresh(s) && s.lateness == 0 && s.planned >= 0 && AllPositive(s.tasks)
    ensures Inv(s)
    ensures Run(s, n).Current().End() || SlotAssertion(Run(s, n))
  {
    FreshInv(s);
    var P := (x: State, k: nat) => Chargeable(x);
    forall x, k: nat | Inv(x) && P(x, k) ensures P(Next(x), k + 1) {
      NextIsChargeable(x);
    }
    RunInduction(s, n, P);
    NextIsChargeable(Run(s, n));
  }

  // ----- the assertion in front of it -----

  predicate FreeHaveLength(ts: seq<Task>) {
    forall i :: 0 <= i < |ts| - 1 && ts[i].Free() ==> ts[i].planned > 0
  }

  /** Every free slot has a length, and once the cursor has moved the first entry has one. */
  predicate SlotsHaveLength(s: State) {
    |s.tasks| > 0 && if s.cur > 0 then s.tasks[0].planned > 0 else s.cur == 0 && FreeHaveLength(s.tasks)
  }

  /** The assertion that tm2 is below the plan, which a finished task meets first (threshold_checking.c:175). */
  ghost predicate TM2Assertion(x: State) {
    && Active(x)
    && var t := Ticked(x).Current();
       t.state == TaskFinished ==> TM2TaskLimit(t.planned) < t.planned
  }

  /** A task that passed it keeps a length, even if the TM2 signal shrinks its plan. */
  lemma LeftFirstHasLength(s: State)
    requires Active(s) && s.cur == 0 && TM2TaskLimit(s.Current().planned) < s.Current().planned
    ensures Left(s).cur == 1 && Left(s).tasks[0].planned > 0
  {
    ActiveIsBeforeTheEnd(s);
    SettleActive(s);
    Ladder(s.Current().planned);
    RescaledBrackets(s.Current().planned);
    assert Settle(s).tasks[0].planned > 0;
  }

  /** No signal rescales a free slot. */
  lemma AfterT2KeepsSlots(s: State)
    requires Active(s) && FreeHaveLength(s.tasks)
    ensures FreeHaveLength(AfterT2(s).tasks)
  {
    ActiveIsBeforeTheEnd(s);
    assert forall i :: 0 <= i < |s.tasks| - 1 ==> GoodEntry(s.tasks[i], s.processes, s.numProcesses);
  }

  lemma MoveStackKeepsSlots(s: State)
    requires Shaped(s) && FreeHaveLength(s.tasks)
    requires InsertionSlot(s.tasks, s.cur, s.Current().pid) != -2
    ensures FreeHaveLength(MoveStack(s).tasks)
  {
    StackFitsSlot(s.tasks, s.cur);
    var slot, k := InsertionSlot(s.tasks, s.cur, s.Current().pid), StackSize(s.tasks, s.cur);
    var r := Rotate(s.tasks, s.cur, k, slot);
    forall i | 0 <= i < |r| - 1 && r[i].Free() ensures r[i].planned > 0 {
      RotateAt(s.tasks, s.cur, k, slot, i);
    }
  }

  lemma PreemptKeepsSlots(s: State)
    requires Shaped(s) && FreeHaveLength(s.tasks)
    ensures FreeHaveLength(Preempt(s).tasks)
  {
    CountPreemptionShaped(s);
    var s1 := CountPreemption(s);
    if InsertionSlot(s1.tasks, s1.cur, s1.Current().pid) != -2 {
      MoveStackKeepsSlots(s1);
    }
  }

  lemma PreemptKeepsCursor(s: State)
    requires InvMidTick(s) && s.Current().state != TaskFinished
    ensures Shaped(Preempt(s)) && Preempt(s).cur == s.cur
  {
    assert JustTicked(s.Current());
    PreemptNotLater(s);
  }

  lemma FirstEntryHasLength(x: State)
    requires Inv(x) && Active(x) && x.cur == 0 && FreeHaveLength(x.tasks) && TM2Assertion(x)
    ensures SlotsHaveLength(SkipPoint(x))
  {
    TickedKeeps(x);
    RetireKeepsOverruns(x.tasks, x.cur, INS_PER_TICK);
    var s1 := Ticked(x);
    assert FreeHaveLength(s1.tasks);
    if s1.Current().state == TaskFinished {
      LeftFirstHasLength(s1);
    } else {
      AfterT2Keeps(s1);
      AfterT2KeepsSlots(s1);
      PreemptKeepsCursor(AfterT2(s1));
      PreemptKeepsSlots(AfterT2(s1));
    }
  }

  /** A tick whose finished task meets that assertion also meets the one at a free slot. */
  lemma TickMeetsSlotAssertion(x: State)
    requires Inv(x) && Active(x) && SlotsHaveLength(x) && TM2Assertion(x)
    ensures SlotAssertion(x) && SlotsHaveLength(Tick(x))
  {
    SkipPointShaped(x);
    if x.cur > 0 {
      FirstEntryStays(x);
    } else {
      FirstEntryHasLength(x);
    }
    TickFromSkipPoint(x);
    if SkipPoint(x).Current().Free() { ChargedSkip(SkipPoint(x)); }
  }

  ghost predicate FailsTM2Assertion(x: State) {
    Inv(x) && Active(x) && !TM2Assertion(x)
  }

  lemma NextSlotsHaveLength(x: State)
    requires Inv(x) && SlotsHaveLength(x) && !FailsTM2Assertion(x)
    ensures SlotsHaveLength(Next(x))
    ensures x.Current().End() || SlotAssertion(x)
  {
    TickKeeps(x);
    if !x.Current().End() { TickMeetsSlotAssertion(x); }
  }

  /**
   * In a plan whose free slots have a length, the assertion at a free slot is never the first to fail:
   * it holds in every tick up to and in which no task fails the assertion on tm2.
   */
  lemma SlotAssertionIsNeverFirst(s: State, n: nat)
    requires Inv(s) && SlotsHaveLength(s)
    requires Tally(Next, FailsTM2Assertion, s, n) == 0 && !FailsTM2Assertion(Run(s, n))
    ensures Run(s, n).Current().End() || SlotAssertion(Run(s, n))
  {
    var P := (x: State, k: nat, c: nat) => Inv(x) && (c == 0 ==> SlotsHaveLength(x));
    forall x, k: nat, c: nat {:trigger Next(x), P(x, k, c)} | P(x, k, c)
      ensures P(Next(x), k + 1, c + if FailsTM2Assertion(x) then 1 else 0)
    {
      if c == 0 && !FailsTM2Assertion(x) { NextSlotsHaveLength(x); }
    }
    TallyInduction(Next, FailsTM2Assertion, s, n, P);
    NextSlotsHaveLength(Run(s, n));
  }

  // ----- a plan on which it fails first -----

  /** Behind the late task 0 a free slot of no length, and another task of its process. */
  predicate SlotThenSibling(r: Rest) {
    && |r.tasks| == 3
    && r.tasks[0].Free() && r.tasks[0].pid == -1 && r.tasks[0].planned == 0
    && r.tasks[1].pid == 0 && r.tasks[2].pid == -2
  }

  /** The plan of the text "1;0,0;;;0,0,1,50000000;-1,-1,0,0;0,1,1,1;". */
  const NO_LENGTH_SLOT := Rest(
    [CreateTask(-1, -1, 0, 0), CreateTask(1, 0, 1, 1), SENTINEL],
    Process(0, 2, 0, 0, 2, 0), UnusedProcesses(9), 1, 2)

  lemma NoLengthPlanIsActive()
    ensures OnTime(NO_LENGTH_SLOT) && SlotThenSibling(NO_LENGTH_SLOT)
  {
  }

  lemma NoLengthPlanIsFresh()
    ensures OnTime(NO_LENGTH_SLOT) && SlotThenSibling(NO_LENGTH_SLOT) && Fresh(LongPlan(0, NO_LENGTH_SLOT))
  {
    NoLengthPlanIsActive();
    var ts := LongPlan(0, NO_LENGTH_SLOT).tasks;
    assert forall i :: 0 <= i < |ts| - 1 ==> i == 1 || ts[i].Real();
  }

  /** The slot that task 0 goes to is the free slot, which comes to the front. */
  lemma FreeSlotComesUp(ts: seq<Task>)
    requires |ts| == 4 && ts[0].pid == 0 && ts[1].pid == -1 && ts[2].pid == 0
    ensures InsertionSlot(ts, 0, 0) == 1 && StackSize(ts, 0) == 1
    ensures Rotate(ts, 0, 1, 1)[0] == ts[1]
  {
    assert RunEnd(ts, 0, 0) == 1 by {
      assert RunEnd(ts, 1, 0) == 1;
    }
    assert NextOf(ts, 1, 0) == 2 by {
      assert NextOf(ts, 2, 0) == 2;
    }
    assert StackEnd(ts, 1, ts[0]) == 1;
    RotateAt(ts, 0, 1, 1, 0);
  }

  lemma FreeSlotIsCurrent(s: State)
    requires Active(s) && s.cur == 0 && |s.tasks| == 4
    requires s.tasks[0].pid == 0 && s.tasks[1].pid == -1 && s.tasks[2].pid == 0
    requires s.tasks[1].Free() && s.tasks[1].planned == 0
    ensures Shaped(Preempt(s)) && Preempt(s).Current().Free() && Preempt(s).tasks[0].planned == 0
  {
    PreemptShaped(s);
    FreeSlotComesUp(CountPreemption(s).tasks);
  }

  /** The tick of `x` preempts its task and finds a free slot in front. */
  ghost predicate PreemptsAtFreeSlot(x: State) {
    Active(x) && EventOf(x) == Preempted(x.Current().pid) && Shaped(SkipPoint(x)) && SkipPoint(x).Current().Free()
  }

  lemma FourthTickPassesFreeSlot(s: State, r: Rest)
    requires OnTime(r) && SlotThenSibling(r) && s == LongPlan(3, r)
    ensures PreemptsAtFreeSlot(s) && SkipPoint(s).tasks[0].planned == 0
  {
    FourthTickIsLate(r);
    FreeSlotComesUp(Ticked(s).tasks);
    FreeSlotIsCurrent(Ticked(s));
  }

  lemma EarlyTicksFinishNothing(k: nat, r: Rest)
    requires k <= 3 && OnTime(r)
    ensures TM2Assertion(LongPlan(k, r))
  {
    LongPlanIsTicked(k, r);
  }

  lemma FreeSlotRun(s: State, n: nat, r: Rest)
    requires OnTime(r) && SlotThenSibling(r) && s == LongPlan(0, r) && n == 3 && Inv(s)
    ensures forall k: nat :: k <= n ==> TM2Assertion(Run(s, k))
    ensures PreemptsAtFreeSlot(Run(s, n)) && !SlotAssertion(Run(s, n))
  {
    forall k: nat | k <= n ensures TM2Assertion(Run(s, k)) {
      LongPlanRuns(s, k, r);
      EarlyTicksFinishNothing(k, r);
    }
    LongPlanRuns(s, n, r);
    var x := Run(s, n);
    FourthTickPassesFreeSlot(x, r);
    SkipPointShaped(x);
    SlotAssertionHoldsIff(SkipPoint(x));
  }

  /**
   * With a free slot of no length it can fail: in this run no task is finished before or in the tick
   * after the third, which preempts task 0, finds the free slot in front and charges nothing for it.
   */
  lemma SlotAssertionCanFail(s: State, n: nat)
    requires s == LongPlan(0, NO_LENGTH_SLOT) && n == 3
    ensures Fresh(s) && Inv(s)
    ensures forall k: nat :: k <= n ==> TM2Assertion(Run(s, k))
    ensures PreemptsAtFreeSlot(Run(s, n)) && !SlotAssertion(Run(s, n))
  {
    NoLengthPlanIsFresh();
    FreshInv(s);
    FreeSlotRun(s, n, NO_LENGTH_SLOT);
  }
}
