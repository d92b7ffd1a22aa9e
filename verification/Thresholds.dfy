/** The thresholds that decide about preemption and signaling (threshold_checking.c). */
module Thresholds {
  import opened Config
  import opened Entities

  /** calculate_t1 (threshold_checking.c:20-33) */
  function T1Limit(planned: int): int {
    var minimum := planned + T1_NO_PREEMPTION;
    var maximum := planned + T1_NO_PREEMPTION;
    var relative := if minimum > planned * T1_SIGMA then minimum else planned * T1_SIGMA;
    if maximum > relative then relative else maximum
  }

  /** calculate_t2_task (threshold_checking.c:60-72) */
  function T2TaskLimit(planned: int): int {
    var least := T1Limit(planned) + T2_SPACER;
    var relative := planned * T2_SIGMA;
    if least > relative then least else relative
  }

  /** check_t2_task (threshold_checking.c:76-86) */
  predicate CheckT2Task(t: Task) {
    t.retiredSlot > T2TaskLimit(t.planned)
  }

  /** calculate_process_completion (process.c:51-58) */
  function Completion(p: Process): int
    requires p.planLength > 0
  {
    var c := CDiv(p.retired * 100, p.planLength);
    if c > 100 then 100 else c
  }

  /** calculate_allowed_plan_buffer (threshold_checking.c:124-132) */
  function AllowedPlanBuffer(p: Process, numProcesses: int): int
    requires p.planLength > 0 && numProcesses > 0
  {
    var deadline := p.buffer * T2_CAPACITY_BUFFER - p.buffer;
    var perProcess := CDiv(deadline, numProcesses);
    CDiv(perProcess * T2_ASSIGNABLE_PLAN_BUFFER * Completion(p), 100)
  }

  /** check_t2_process with calculate_capacity_buffer (threshold_checking.c:94-122) */
  predicate CheckT2Process(p: Process, numProcesses: int, stress: int)
    requires p.planLength > 0 && numProcesses > 0
  {
    && p.lateness > p.planLength * T2_CAPACITY_BUFFER
    && var allowed := AllowedPlanBuffer(p, numProcesses) + stress * T2_STRESS_GAIN - RESCHEDULE_TIME;
       p.lateness > (if allowed < T2_PROCESS_MINIMUM then T2_PROCESS_MINIMUM else allowed)
  }

  /** calculate_t2_node (threshold_checking.c:149-157) */
  function T2NodeLimit(numProcesses: int, planned: int, stress: int): int {
    var least := numProcesses * T2_PROCESS_MINIMUM;
    var relative := CDiv(planned * T2_NODE_LATENESS, 100) + stress * T2_STRESS_GAIN - RESCHEDULE_TIME - planned;
    if relative < least then least else relative
  }

  /** check_t2_node (threshold_checking.c:135-145) */
  predicate CheckT2Node(numProcesses: int, planned: int, stress: int, lateness: int) {
    lateness > T2NodeLimit(numProcesses, planned, stress)
  }

  /** check_t2_preemptions (threshold_checking.c:232-241) */
  predicate CheckT2Preemptions(t: Task) {
    t.wasPreempted > T2_MAX_PREEMPTIONS
  }

  /** calculate_tm2_task (threshold_checking.c:192-199) */
  function TM2TaskLimit(planned: int): int {
    var relative := CDiv(planned * TM2_SIGMA, 100);
    var most := if relative > TM2_TASK_SIGNALING_LIMIT then planned + TM2_TASK_SIGNALING_LIMIT else relative;
    var positive := if most > 0 then most else 1;
    if positive < TM2_TASK_SIGNALING_START then TM2_TASK_SIGNALING_START else positive
  }

  /** check_tm2_task (threshold_checking.c:165-186) */
  predicate CheckTM2Task(t: Task) {
    t.retiredSlot < TM2TaskLimit(t.planned) && t.state == TaskFinished
  }

  /** calculate_tm2_node (threshold_checking.c:222-229) */
  function TM2NodeLimit(planned: int): int {
    var relative := planned * TM2_NODE_EARLINESS_CAP;
    var lowerBound := CDiv(TM2_NODE_LOWER_BOUND * planned, 100);
    if relative > lowerBound then relative else lowerBound
  }

  /** check_tm2_node (threshold_checking.c:203-219) */
  predicate CheckTM2Node(planned: int, lateness: int) {
    lateness < TM2NodeLimit(planned)
  }

  /** What rescheduling makes of a planned length (prediction_failure_signaling.c:75). */
  function Rescaled(planned: int, kind: SignalKind): (r: int)
    ensures planned >= 0 ==> r >= 0
  {
    CDiv(planned * (if kind == T2 then STRETCH_CONSTANT else SHRINK_CONSTANT), 100)
  }

  /**
   * The ladder tm2 < planned < t1 < t2 (threshold_checking.c:20-33, 60-72, 175-176, 192-199).
   * Its lowest rung needs a plan of two instructions: below that tm2 is not under the plan.
   */
  lemma Ladder(planned: int)
    ensures 1 <= TM2TaskLimit(planned)
    ensures TM2TaskLimit(planned) < planned <==> planned >= 2
    ensures planned < T1Limit(planned) < T2TaskLimit(planned)
    ensures T1Limit(planned) == planned + T1_NO_PREEMPTION
  {
  }

  /**
   * What the task limits come down to: t2 is thirteen ticks above the plan or 175 times the plan,
   * tm2 ten ticks below the plan, but at least one instruction.
   */
  lemma TaskLimits(planned: int)
    requires planned >= 0
    ensures T2TaskLimit(planned) ==
            if 174 * planned <= 13 * INS_PER_TICK then planned + 13 * INS_PER_TICK else 175 * planned
    ensures TM2TaskLimit(planned) == if planned > 10 * INS_PER_TICK then planned - 10 * INS_PER_TICK else 1
  {
  }

  /**
   * What the node limits come down to: a second for each process, or a tenth of the plan with a
   * correction for stress; and a fifth of the plan on the early side. The sign that the program asserts
   * of each (threshold_checking.c:155, 227) then holds, for tm2 exactly from a plan of five instructions on.
   */
  lemma NodeLimits(numProcesses: int, planned: int, stress: int)
    requires planned >= 0
    ensures var relative := planned / 10 + stress * T2_STRESS_GAIN - INS_PER_SEC;
            T2NodeLimit(numProcesses, planned, stress) ==
            if relative < numProcesses * INS_PER_SEC then numProcesses * INS_PER_SEC else relative
    ensures numProcesses > 0 ==> T2NodeLimit(numProcesses, planned, stress) > 0
    ensures TM2NodeLimit(planned) == -(planned / 5)
    ensures TM2NodeLimit(planned) < 0 <==> planned >= 5
  {
  }

  lemma QuotientIsZeroIff(a: nat, b: nat)
    requires b > 0
    ensures a / b == 0 <==> a < b
  {
    assert a == b * (a / b) + a % b;
    if a / b >= 1 { assert b * (a / b) >= b; }
  }

  /** The completion is at most 100, and its assertion (process.c:55) holds exactly down to this bound. */
  lemma CompletionIsAPercentage(p: Process)
    requires p.planLength > 0
    ensures Completion(p) <= 100
    ensures Completion(p) >= 0 <==> p.retired * 100 > -p.planLength
  {
    if p.retired < 0 { QuotientIsZeroIff(-(p.retired * 100), p.planLength); }
  }

  /** A percentage of an amount lies between nothing and the amount, on either side of zero. */
  lemma Scaled(a: int, c: int)
    requires 0 <= c <= 100
    ensures a >= 0 ==> 0 <= CDiv(a * c, 100) <= a
    ensures a <= 0 ==> a <= CDiv(a * c, 100) <= 0
    ensures c == 100 ==> CDiv(a * c, 100) == a
  {
    assert a >= 0 ==> 0 <= a * c <= a * 100;
    assert a <= 0 ==> a * 100 <= a * c <= 0;
  }

  /**
   * The buffer that a process may use up grows from nothing to its full share with its completion,
   * also if the share is negative (threshold_checking.c:124-132). The completion is a percentage
   * whenever its assertion holds.
   */
  lemma AllowedBufferIsAShare(p: Process, numProcesses: int)
    requires p.planLength > 0 && numProcesses > 0 && p.retired * 100 > -p.planLength
    ensures var share := CDiv(109 * p.buffer, numProcesses) * T2_ASSIGNABLE_PLAN_BUFFER;
            && (p.buffer >= 0 ==> 0 <= AllowedPlanBuffer(p, numProcesses) <= share)
            && (p.buffer <= 0 ==> share <= AllowedPlanBuffer(p, numProcesses) <= 0)
            && (p.retired >= p.planLength ==> AllowedPlanBuffer(p, numProcesses) == share)
  {
    CompletionIsAPercentage(p);
    Scaled(CDiv(109 * p.buffer, numProcesses) * T2_ASSIGNABLE_PLAN_BUFFER, Completion(p));
    if p.retired >= p.planLength {
      FullQuotient(p.retired * 100, p.planLength);
    }
  }

  lemma ProductBelow(b: nat, x: int, y: int)
    ensures x <= y ==> b * x <= b * y
  {
  }

  lemma FullQuotient(a: nat, b: nat)
    requires b > 0 && a >= 100 * b
    ensures a / b >= 100
  {
    assert a == b * (a / b) + a % b;
    ProductBelow(b, a / b, 99);
  }

  /**
   * The two levels of check_t2_process (threshold_checking.c:94-122): it never fires for a process that
   * is at most a second late or at most 110 times its plan, and lateness and a pause from signals only
   * ever speak for it.
   */
  lemma T2ProcessIsMonotone(p: Process, numProcesses: int, stress: int, later: Process, calmer: int)
    requires p.planLength > 0 && numProcesses > 0
    requires CheckT2Process(p, numProcesses, stress)
    requires later == p.(lateness := later.lateness) && later.lateness >= p.lateness && calmer <= stress
    ensures p.lateness > INS_PER_SEC && p.lateness > 110 * p.planLength
    ensures CheckT2Process(later, numProcesses, calmer)
  {
    assert AllowedPlanBuffer(later, numProcesses) == AllowedPlanBuffer(p, numProcesses);
  }

  /**
   * Stretching a plan by a T2 signal never lifts t1 above the t2 that was just exceeded, so the
   * preemption that t2 implies still happens in the same tick
   * (pb-scheduler.c:94-106, prediction_failure_signaling.c:59-80).
   */
  lemma StretchKeepsT1BelowT2(planned: int)
    requires planned >= 0
    ensures T1Limit(Rescaled(planned, T2)) <= T2TaskLimit(planned)
  {
  }

  /**
   * Rescheduling stretches a plan by five percent or shrinks it by five percent, rounded down, so it
   * keeps a plan non-negative and changes it only in the direction of the signal.
   */
  lemma RescaledBrackets(planned: int)
    requires planned >= 0
    ensures 100 * Rescaled(planned, T2) <= 105 * planned < 100 * (Rescaled(planned, T2) + 1)
    ensures 100 * Rescaled(planned, TM2) <= 95 * planned < 100 * (Rescaled(planned, TM2) + 1)
    ensures 0 <= Rescaled(planned, TM2) <= planned <= Rescaled(planned, T2)
    ensures Rescaled(planned, TM2) == 0 <==> planned <= 1
  {
  }
}
