/**
 * When a tick signals, preempts and relaxes the stress, told in numbers and in the fields of the plan
 * before the tick. A tick retires 10,000,000 instructions, a second is 1,000,000,000.
 */
module Decisions {
  import opened Config
  import opened Entities
  import opened Thresholds
  import opened Model
  import opened Layout
  import opened Accounting
  import opened Progress
  import opened Iteration
  import opened Invariant
  import opened Stress

  /** The tick brings the current task to its real length. */
  predicate FinishesTask(s: State)
    requires 0 <= s.cur < |s.tasks|
  {
    s.Current().retiredTask + 10_000_000 >= s.Current().actual
  }

  /** What is booked on a task's own slot when the tick of the task takes its decisions. */
  function OwnSlot(t: Task): int {
    t.retiredSlot + if t.slotOwner == t.id then 10_000_000 else 0
  }

  /** The tick's booking, as far as decisions depend on it. */
  lemma BookingFields(s: State)
    requires Inv(s) && Active(s)
    ensures var b, t, u := Ticked(s), s.Current(), Ticked(s).Current();
            && b.cur == s.cur && b.curProcess == s.curProcess && b.numProcesses == s.numProcesses
            && b.lateness == s.lateness && b.planned == s.planned && b.stress == s.stress
            && b.signals == s.signals && b.ticks == s.ticks
            && u.id == t.id && u.pid == t.pid && u.slotOwner == t.slotOwner && u.planned == t.planned
            && u.wasPreempted == t.wasPreempted && u.actual == t.actual
            && u.retiredSlot == OwnSlot(t) && (u.state == TaskFinished <==> FinishesTask(s))
  {
    ActiveIsBeforeTheEnd(s);
    RetireTouches(s, INS_PER_TICK);
    assert Resting(s.Current());
    OwnerIsFound(s, INS_PER_TICK);
  }

  /** Only a task in its own slot books on it. */
  lemma OwnerIsFound(s: State, n: int)
    requires LaidOut(s) && Active(s)
    ensures var ts := s.tasks[s.cur := RetireOnTask(s.Current(), n)];
            SlotIndex(ts, s.cur) == s.cur <==> s.Current().slotOwner == s.Current().id
  {
    ActiveIsBeforeTheEnd(s);
    var s1 := s.(tasks := s.tasks[s.cur := RetireOnTask(s.Current(), n)]);
    RetiredOnTaskShaped(s, n);
    SameLayoutOrdered(s, s1);
    SlotLookupSucceeds(s1);
  }

  lemma BookingOnProcess(s: State)
    requires Active(s)
    ensures 0 <= s.curProcess < |s.processes| && s.curProcess == s.Current().pid
    ensures |Ticked(s).processes| == |s.processes|
    ensures Ticked(s).processes[s.curProcess] ==
            s.processes[s.curProcess].(retired := s.processes[s.curProcess].retired + 10_000_000)
  {
    ActiveIsBeforeTheEnd(s);
  }

  // ----- T2 -----

  predicate TaskTooLate(t: Task) {
    OwnSlot(t) > t.planned + 130_000_000 && OwnSlot(t) > 175 * t.planned
  }

  /** How much of its plan the process has retired, in percent and at most 100, behind the tick's booking. */
  function PercentDone(p: Process): int
    requires p.planLength > 0
  {
    var percent := (p.retired + 10_000_000) * 100 / p.planLength;
    if percent > 100 then 100 else percent
  }

  predicate ProcessTooLate(p: Process, numProcesses: int, stress: int)
    requires p.planLength > 0 && numProcesses > 0
  {
    && p.lateness > 110 * p.planLength
    && p.lateness > 1_000_000_000
    && p.lateness >
       CDiv(CDiv(109 * p.buffer, numProcesses) * 50 * PercentDone(p), 100) + stress * 2_500_000 - 1_000_000_000
  }

  predicate PlanTooLate(s: State) {
    && s.lateness > s.numProcesses * 1_000_000_000
    && s.lateness > CDiv(110 * s.planned, 100) - s.planned + s.stress * 2_500_000 - 1_000_000_000
  }

  predicate MustSignalT2(s: State)
    requires Active(s)
  {
    ActiveIsBeforeTheEnd(s);
    && (s.stress == 0 || s.Current().wasPreempted > 5)
    && (|| TaskTooLate(s.Current())
        || ProcessTooLate(s.processes[s.curProcess], s.numProcesses, s.stress)
        || PlanTooLate(s))
  }

  lemma ProcessCheckInNumbers(p: Process, q: Process, numProcesses: int, stress: int)
    requires p.planLength > 0 && numProcesses > 0 && p.retired >= 0
    requires q == p.(retired := p.retired + 10_000_000)
    ensures CheckT2Process(q, numProcesses, stress) <==> ProcessTooLate(p, numProcesses, stress)
  {
    assert Completion(q) == PercentDone(p);
    assert q.buffer * 110 - q.buffer == 109 * p.buffer;
  }

  lemma T2DueInNumbers(s: State)
    requires Inv(s) && Active(s)
    ensures Active(Ticked(s)) && (T2Due(Ticked(s)) <==> MustSignalT2(s))
  {
    ActiveIsBeforeTheEnd(s);
    BookingFields(s);
    BookingOnProcess(s);
    RetiredIsNonNegative(s, s.curProcess);
    ProcessCheckInNumbers(s.processes[s.curProcess], Ticked(s).processes[s.curProcess], s.numProcesses, s.stress);
    assert s.Current().planned >= 0;
  }

  // ----- TM2 -----

  predicate MustSignalTM2(s: State)
    requires 0 <= s.cur < |s.tasks|
  {
    var t := s.Current();
    || OwnSlot(t) < (if t.planned > 100_000_000 then t.planned - 100_000_000 else 1)
    || s.lateness < CDiv(-20 * s.planned, 100)
    || s.lateness < -90 * s.planned
  }

  lemma TM2DueInNumbers(s: State)
    requires Inv(s) && Active(s) && FinishesTask(s)
    ensures TM2Due(Ticked(s)) <==> MustSignalTM2(s)
  {
    ActiveIsBeforeTheEnd(s);
    BookingFields(s);
    assert s.Current().planned >= 0;
    TaskLimits(s.Current().planned);
  }

  // ----- the log -----

  /** What a tick adds to the log of signals, and when. */
  function NewSignals(s: State): seq<Signal>
    requires Active(s)
  {
    var t := s.Current();
    if FinishesTask(s) then (if MustSignalTM2(s) then [Signal(t.id, t.pid, s.ticks, TM2)] else [])
    else (if MustSignalT2(s) then [Signal(t.id, t.pid, s.ticks, T2)] else [])
  }

  /**
   * A tick that finishes its task logs a TM2 signal if and only if the task's slot or the plan is too
   * early; any other tick logs a T2 signal if and only if the stress is over, or the task was preempted
   * more than five times, and the task, its process or the plan is too late (pb-scheduler.c:60-65, 94-101;
   * threshold_checking.c:20-33, 60-157, 165-241).
   */
  lemma SignalsExactly(s: State)
    requires Inv(s) && Active(s)
    ensures Tick(s).signals == s.signals + NewSignals(s)
  {
    TickLogs(s);
    TickKeeps(s);
    BookingFields(s);
    T2DueInNumbers(s);
    if FinishesTask(s) { TM2DueInNumbers(s); }
  }

  // ----- T1 -----

  predicate GivesWay(s: State)
    requires Active(s)
  {
    EventOf(s).Preempted? || EventOf(s) == NoSlot
  }

  lemma OwnerIsUnique(s: State, j: int)
    requires Ordered(s) && s.Current().Real() && s.cur < |s.tasks| - 1
    requires Owns(s.tasks, s.cur, j)
    ensures SlotIndex(s.tasks, s.cur) == j
  {
    SlotLookupSucceeds(s);
    var o := SlotIndex(s.tasks, s.cur);
    assert GoodEntry(s.tasks[j], s.processes, s.numProcesses);
    assert s.tasks[o].id == s.tasks[j].id;
  }

  lemma SlotOfOwner(s: State, j: int)
    requires Inv(s) && Active(s) && Owns(s.tasks, s.cur, j)
    ensures |Ticked(s).tasks| == |s.tasks|
    ensures Ticked(s).tasks[j].retiredSlot == s.tasks[j].retiredSlot + 10_000_000
    ensures Ticked(s).tasks[j].planned == s.tasks[j].planned
  {
    ActiveIsBeforeTheEnd(s);
    RetireTouches(s, INS_PER_TICK);
    var s1 := s.(tasks := s.tasks[s.cur := RetireOnTask(s.Current(), INS_PER_TICK)]);
    RetiredOnTaskShaped(s, INS_PER_TICK);
    SameLayoutOrdered(s, s1);
    assert Owns(s1.tasks, s1.cur, j);
    OwnerIsUnique(s1, j);
  }

  lemma T1OfOwner(s: State, j: int)
    requires InvMidTick(s) && Owns(s.tasks, s.cur, j)
    ensures Active(AfterT2(s)) && |AfterT2(s).tasks| == |s.tasks|
    ensures CheckT1(AfterT2(s)) <==>
            AfterT2(s).tasks[j].retiredSlot >= AfterT2(s).tasks[j].planned + 30_000_000
  {
    AfterT2Keeps(s);
    var t := AfterT2(s);
    ActiveIsBeforeTheEnd(t);
    assert Owns(t.tasks, t.cur, j);
    OwnerIsUnique(t, j);
    Ladder(t.tasks[j].planned);
  }

  /** The plan of the owner after a possible T2 signal, which is one of its own process. */
  lemma OwnersPlan(s: State, j: int)
    requires InvMidTick(s) && Owns(s.tasks, s.cur, j)
    ensures |AfterT2(s).tasks| == |s.tasks|
    ensures AfterT2(s).tasks[j].retiredSlot == s.tasks[j].retiredSlot
    ensures AfterT2(s).tasks[j].planned == if T2Due(s) then 105 * s.tasks[j].planned / 100 else s.tasks[j].planned
  {
    ActiveIsBeforeTheEnd(s);
    assert s.processes[s.curProcess].pid == s.Current().pid;
    assert s.tasks[j].planned >= 0;
  }

  /**
   * A tick that does not finish its task preempts it, or cuts it short, if and only if the slot it runs
   * in has used up the plan of the slot's owner and three ticks more. That plan is the one after a T2
   * signal of this tick (pb-scheduler.c:104-111; threshold_checking.c:20-56).
   */
  lemma T1Exactly(s: State, j: int)
    requires Inv(s) && Active(s) && !FinishesTask(s) && Owns(s.tasks, s.cur, j)
    ensures var planned := if MustSignalT2(s) then 105 * s.tasks[j].planned / 100 else s.tasks[j].planned;
            GivesWay(s) <==> s.tasks[j].retiredSlot + 10_000_000 >= planned + 30_000_000
  {
    TickedKeeps(s);
    BookingFields(s);
    SlotOfOwner(s, j);
    assert Owns(Ticked(s).tasks, s.cur, j);
    OwnersPlan(Ticked(s), j);
    T1OfOwner(Ticked(s), j);
    T2DueInNumbers(s);
  }

  // ----- stress -----

  function Lowered(stress: int): int {
    if stress > 0 then stress - 1 else 0
  }

  lemma FinishStressExactly(s: State)
    requires InvMidTick(s)
    ensures FinishTask(s).stress == Lowered(if TM2Due(s) then 3000 else s.stress)
  {
    LeftOrdered(s);
    FinishIsLeaving(s);
    SkipStress(Left(s));
    ActiveIsBeforeTheEnd(s);
  }

  lemma ContinueStressExactly(s: State)
    requires InvMidTick(s)
    ensures Active(AfterT2(s))
    ensures ContinueTask(s).stress ==
            var stress := if T2Due(s) then 3000 else s.stress;
            if CheckT1(AfterT2(s)) then stress else Lowered(stress)
  {
    ActiveIsBeforeTheEnd(s);
    AfterT2Keeps(s);
    PreemptStress(AfterT2(s));
  }

  /**
   * The stress after a tick: a signal sets it to 3000; then it is lowered by one down to zero, unless the
   * tick preempts its task or cuts it short (pb-scheduler.c:83-84, 104-116; prediction_failure_signaling.c:23, 42).
   */
  lemma StressExactly(s: State)
    requires Inv(s) && Active(s)
    ensures var stress := if NewSignals(s) != [] then 3000 else s.stress;
            Tick(s).stress == if GivesWay(s) then stress else Lowered(stress)
  {
    TickedKeeps(s);
    BookingFields(s);
    T2DueInNumbers(s);
    if FinishesTask(s) {
      TM2DueInNumbers(s);
      FinishStressExactly(Ticked(s));
    } else {
      ContinueStressExactly(Ticked(s));
    }
  }

  /** A tick that keeps the stress from sinking: it signals, gives way, or finds the plan at its end. */
  ghost predicate HoldsStress(x: State) {
    Inv(x) && (SettledCases(x); x.Current().End() || NewSignals(x) != [] || GivesWay(x))
  }

  lemma NextLowersStress(x: State)
    requires Inv(x) && !HoldsStress(x)
    ensures Next(x).stress == Lowered(x.stress)
  {
    TickKeeps(x);
    StressExactly(x);
  }

  /** After `n` ticks of which `c` held the stress. */
  ghost predicate Sunk(x: State, n: nat, c: nat, top: int) {
    Inv(x) && (c == 0 ==> x.stress == AtLeastZero(top - n))
  }

  lemma NextSinks(x: State, n: nat, c: nat, top: int)
    requires Sunk(x, n, c, top)
    ensures Sunk(Next(x), n + 1, c + if HoldsStress(x) then 1 else 0, top)
  {
    if c == 0 && !HoldsStress(x) { NextLowersStress(x); }
  }

  /** The pause ends: after `k` ticks of which none signals or gives way, the stress has sunk by `k`. */
  lemma StressSinks(s: State, k: nat)
    requires Inv(s) && Tally(Next, HoldsStress, s, k) == 0
    ensures Run(s, k).stress == AtLeastZero(s.stress - k)
  {
    var top := s.stress;
    var P := (x: State, n: nat, c: nat) => Sunk(x, n, c, top);
    forall x, n: nat, c: nat {:trigger Next(x), P(x, n, c)} | P(x, n, c)
      ensures P(Next(x), n + 1, c + if HoldsStress(x) then 1 else 0)
    {
      NextSinks(x, n, c, top);
    }
    assert P(s, 0, 0);
    TallyInduction(Next, HoldsStress, s, k, P);
    assert Sunk(Run(s, k), k, 0, top);
  }
}
