/** The tuning constants of the scheduler (config.h), and C's division. */
module Config {
  const MAX_NUMBER_PROCESSES := 10
  const MAX_NUMBER_TASKS_IN_PLAN := 400

  const PBS_HZ := 100
  const INS_PER_SEC := 1_000_000_000
  const INS_PER_TICK := INS_PER_SEC / PBS_HZ
  const RESCHEDULE_TIME := PBS_HZ * INS_PER_TICK

  const T1_MAX_TICKS_OFF := 10
  const T1_MIN_TICKS_OFF := 3
  const T1_NO_PREEMPTION := T1_MIN_TICKS_OFF * INS_PER_TICK
  const T1_SIGMA := 125

  const T2_SIGMA := T1_SIGMA + 50
  const T2_SPACER := T1_MAX_TICKS_OFF * INS_PER_TICK
  const T2_TASK_SIGNALING_LIMIT := PBS_HZ * INS_PER_TICK
  const T2_CAPACITY_BUFFER := 110
  const T2_ASSIGNABLE_PLAN_BUFFER := 50
  const T2_PROCESS_MINIMUM := T2_TASK_SIGNALING_LIMIT
  const T2_NODE_LATENESS := 110
  const T2_MAX_PREEMPTIONS := 5

  const STRESS_RESET := PBS_HZ * 30
  const T2_STRESS_GAIN := 25 * INS_PER_TICK / 100

  const TM2_SIGMA := 100 - (T2_SIGMA - 100)
  const TM2_TASK_SIGNALING_LIMIT := -T2_SPACER
  const TM2_TASK_SIGNALING_START := -T2_TASK_SIGNALING_LIMIT
  const TM2_NODE_EARLINESS_CAP := -(100 - (T2_NODE_LATENESS - 100))
  const TM2_NODE_LOWER_BOUND := -20

  const STRETCH_CONSTANT := 105
  const SHRINK_CONSTANT := 95

  const SIZE_SIG_BUFFER := 100

  /** C's integer division, which truncates toward zero. */
  function CDiv(a: int, b: int): (q: int)
    requires b != 0
    ensures a >= 0 && b > 0 ==> q >= 0
    ensures a <= 0 && b > 0 ==> q <= 0
  {
    if a >= 0 then a / b else -((-a) / b)
  }

  /** The quotient is the whole number next to the exact one on the side of zero. */
  lemma CDivTruncates(a: int, b: int)
    requires b > 0
    ensures a >= 0 ==> CDiv(a, b) * b <= a < CDiv(a, b) * b + b
    ensures a <= 0 ==> CDiv(a, b) * b - b < a <= CDiv(a, b) * b
  {
    var m := if a >= 0 then a else -a;
    assert m == m / b * b + m % b;
  }
}
