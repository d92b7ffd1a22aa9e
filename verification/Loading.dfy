/** From the text of a plan to the end of its run (main.c:582-603). */
module Loading {
  import opened Config
  import opened Entities
  import opened Totals
  import opened PlanText
  import opened Layout
  import opened Progress
  import opened Invariant
  import opened Steps
  import opened Termination
  import opened Scheduler
  import opened Parser
  import opened FullRun
  import opened FreeSlots

  predicate FreeLine(t: TaskLine) {
    t.pid == -1
  }

  predicate FreeLines(tasks: seq<TaskLine>, i: int)
    requires 0 <= i < |tasks| - 1
  {
    FreeLine(tasks[i]) && FreeLine(tasks[i + 1])
  }

  /** A task or a free slot of a plan with `n` processes. */
  predicate GoodLine(t: TaskLine, n: int) {
    && LongTask(t, n) && t.id != -2 && (t.id == -1 <==> FreeLine(t))
    && t.planned > 0 && t.actual >= 0
  }

  /** The plans that the scheduler is written for. */
  predicate WellFormed(processes: seq<ProcessLine>, tasks: seq<TaskLine>) {
    && |processes| < MAX_NUMBER_PROCESSES && |tasks| < MAX_NUMBER_TASKS_IN_PLAN
    && (forall p :: 0 <= p < |processes| ==> processes[p].pid == p && LongProcess(processes[p]))
    && (forall i :: 0 <= i < |tasks| ==> GoodLine(tasks[i], |processes|))
    && (forall i, j :: 0 <= i < j < |tasks| && !FreeLine(tasks[i]) ==> tasks[i].id != tasks[j].id)
    && (forall i {:trigger FreeLines(tasks, i)} :: 0 <= i < |tasks| - 1 ==> !FreeLines(tasks, i))
    && (|tasks| > 0 ==> !FreeLine(tasks[0]))
  }

  lemma {:induction false} PlannedOfIsPositive(tasks: seq<TaskLine>, p: int, i: int)
    requires forall k :: 0 <= k < |tasks| ==> tasks[k].planned > 0
    ensures PlannedOf(tasks, p) >= 0
    ensures 0 <= i < |tasks| && tasks[i].pid == p ==> PlannedOf(tasks, p) > 0
  {
    if tasks == [] {
    } else {
      PlannedOfIsPositive(tasks[1..], p, i - 1);
    }
  }

  /** What the plan's arrays and cursor are right after parsing. */
  predicate Loaded(s: State, processes: seq<ProcessLine>, tasks: seq<TaskLine>, ps: seq<Process>) {
    && |processes| < |ps| == MAX_NUMBER_PROCESSES
    && s.numProcesses == |processes| && s.processes == TableOf(ps, processes, tasks)
    && |s.tasks| == |tasks| + 1
    && (forall i :: 0 <= i < |tasks| ==> s.tasks[i] == TaskOf(tasks[i]))
    && s.tasks[|tasks|].id == s.tasks[|tasks|].pid == -2
    && s.cur == s.tasksFinished == 0 && s.curProcess == s.tasks[0].pid
    && s.retired == s.stress == 0
  }

  lemma LoadedIsShaped(s: State, processes: seq<ProcessLine>, tasks: seq<TaskLine>, ps: seq<Process>)
    requires WellFormed(processes, tasks) && Loaded(s, processes, tasks, ps)
    ensures Shaped(s)
    ensures forall p :: 0 <= p < s.numProcesses ==> s.processes[p].retired == 0
  {
    forall p | 0 <= p < |processes| ensures s.processes[p].pid == p && s.processes[p].retired == 0 {
      TableAt(ps, processes, tasks, p);
    }
    forall i | 0 <= i < |tasks| ensures GoodEntry(s.tasks[i], s.processes, s.numProcesses) {
      assert GoodLine(tasks[i], |processes|);
      if !FreeLine(tasks[i]) {
        TableAt(ps, processes, tasks, tasks[i].pid);
        PlannedOfIsPositive(tasks, tasks[i].pid, i);
      }
    }
  }

  /** number_processes_in_plan finds the count that the text gives (plan.c:113-121). */
  lemma EndMarkCountsProcesses(s: State, processes: seq<ProcessLine>, tasks: seq<TaskLine>, ps: seq<Process>, n: nat)
    requires WellFormed(processes, tasks) && Loaded(s, processes, tasks, ps)
    requires n < MAX_NUMBER_PROCESSES && s.processes[n].pid == -2
    requires forall i :: 0 <= i < n ==> s.processes[i].pid != -2
    ensures n == s.numProcesses
  {
    TableAt(ps, processes, tasks, |processes|);
    if n < |processes| {
      TableAt(ps, processes, tasks, n);
    }
  }

  /** A well-formed plan is fresh after parsing, so everything proved of fresh plans holds of it. */
  lemma LoadedIsFresh(s: State, processes: seq<ProcessLine>, tasks: seq<TaskLine>, ps: seq<Process>)
    requires WellFormed(processes, tasks) && Loaded(s, processes, tasks, ps)
    ensures Fresh(s)
  {
    LoadedIsShaped(s, processes, tasks, ps);
    forall i | 0 <= i < |s.tasks| - 1 ensures !FreePair(s.tasks, i) {
      if i + 1 < |tasks| { assert !FreeLines(tasks, i); }
    }
    forall i, j | 0 <= i < j < |s.tasks| && s.tasks[i].Real() ensures s.tasks[i].id != s.tasks[j].id {
      assert !FreeLine(tasks[i]);
    }
  }

  lemma {:induction false} SumPlannedIsPositive(tasks: seq<TaskLine>)
    requires forall i :: 0 <= i < |tasks| ==> tasks[i].planned > 0
    ensures SumPlanned(tasks) >= 0
  {
    if tasks == [] {
    } else {
      SumPlannedIsPositive(tasks[1..]);
    }
  }

  /** In no run of a well-formed plan does the assertion of handle_free_slot fail (pb-scheduler.c:173). */
  lemma FreeSlotsAreCharged(
      s: State, n: nat, processes: seq<ProcessLine>, tasks: seq<TaskLine>, ps: seq<Process>)
    requires WellFormed(processes, tasks) && Loaded(s, processes, tasks, ps)
    requires s.lateness == 0 && s.planned == SumPlanned(tasks)
    ensures Inv(s)
    ensures Run(s, n).Current().End() || SlotAssertion(Run(s, n))
  {
    LoadedIsFresh(s, processes, tasks, ps);
    SumPlannedIsPositive(tasks);
    SlotAssertionNeverFails(s, n);
  }

  // ----- a whole run, told in terms of the text -----

  /** What stays of a line throughout a run. */
  function LineIdentity(t: TaskLine): (int, int, int) {
    (t.id, t.pid, t.actual)
  }

  function LineIdentities(tasks: seq<TaskLine>): (r: seq<(int, int, int)>)
    ensures |r| == |tasks|
  {
    seq(|tasks|, i requires 0 <= i < |tasks| => LineIdentity(tasks[i]))
  }

  /** The ticks that the lines' tasks take if each runs undisturbed. */
  function LineTicks(tasks: seq<TaskLine>): int {
    if tasks == [] then 0
    else (if FreeLine(tasks[0]) then 0 else TicksFor(tasks[0].actual)) + LineTicks(tasks[1..])
  }

  lemma {:induction false} LineTicksAreTheBudget(ts: seq<Task>, tasks: seq<TaskLine>)
    requires |ts| == |tasks| + 1 && ts[|tasks|].id == -2
    requires forall i :: 0 <= i < |tasks| ==> ts[i] == TaskOf(tasks[i])
    requires forall i :: 0 <= i < |tasks| ==> tasks[i].id != -2 && (tasks[i].id == -1 <==> FreeLine(tasks[i]))
    ensures TickBudget(ts) == LineTicks(tasks)
    decreases |tasks|
  {
    if tasks == [] {
      assert ts[1..] == [];
    } else {
      LineTicksAreTheBudget(ts[1..], tasks[1..]);
    }
  }

  /** Every line of the text is there at the end, as a task that was run to its end or as a free slot. */
  ghost predicate AllRun(ts: seq<Task>, tasks: seq<TaskLine>) {
    && |ts| == |tasks| + 1
    && multiset(Identities(ts[..|tasks|])) == multiset(LineIdentities(tasks))
    && forall i :: 0 <= i < |tasks| && ts[i].Real() ==> Done(ts[i])
  }

  lemma WithoutLast(a: seq<(int, int, int)>, m: nat)
    requires |a| == m + 1
    ensures multiset(a[..m]) == multiset(a) - multiset{a[m]}
  {
    assert a == a[..m] + [a[m]];
  }

  /** The sentinel is the only entry of its kind, so it can be left out on both sides. */
  lemma WithoutSentinel(a: seq<(int, int, int)>, b: seq<(int, int, int)>, m: nat)
    requires |a| == |b| == m + 1 && multiset(a) == multiset(b)
    requires a[m].0 == -2 && forall i :: 0 <= i < m ==> b[i].0 != -2
    ensures multiset(a[..m]) == multiset(b[..m])
  {
    assert a[m] == b[m] by {
      assert a[m] in multiset(a);
      assert a[m] in b;
    }
    WithoutLast(a, m);
    WithoutLast(b, m);
  }

  lemma SameLength(a: seq<(int, int, int)>, b: seq<(int, int, int)>)
    requires multiset(a) == multiset(b)
    ensures |a| == |b|
  {
    assert |multiset(a)| == |multiset(b)|;
  }

  lemma IdentitiesOfLoaded(ts: seq<Task>, tasks: seq<TaskLine>)
    requires |ts| == |tasks| + 1 && forall i :: 0 <= i < |tasks| ==> ts[i] == TaskOf(tasks[i])
    ensures Identities(ts)[..|tasks|] == LineIdentities(tasks)
  {
  }

  lemma IdentitiesOfFront(ts: seq<Task>, m: nat)
    requires m <= |ts|
    ensures Identities(ts)[..m] == Identities(ts[..m])
  {
  }

  predicate StartsAs(ts: seq<Task>, tasks: seq<TaskLine>) {
    |ts| == |tasks| + 1 && forall i :: 0 <= i < |tasks| ==> ts[i] == TaskOf(tasks[i]) && tasks[i].id != -2
  }

  lemma RunOfLoaded(start: seq<Task>, r: seq<Task>, tasks: seq<TaskLine>)
    requires StartsAs(start, tasks)
    requires multiset(Identities(r)) == multiset(Identities(start))
    requires |r| > 0 && r[|r| - 1].id == -2
    requires forall i :: 0 <= i < |r| - 1 && r[i].Real() ==> Done(r[i])
    ensures AllRun(r, tasks)
  {
    var m := |tasks|;
    SameLength(Identities(r), Identities(start));
    IdentitiesOfLoaded(start, tasks);
    assert forall i :: 0 <= i < m ==> Identities(start)[i] == LineIdentities(tasks)[i];
    WithoutSentinel(Identities(r), Identities(start), m);
    IdentitiesOfFront(r, m);
  }

  lemma HeldIsLoaded(s: State, processes: seq<ProcessLine>, tasks: seq<TaskLine>, ps: seq<Process>, ts: seq<Task>)
    requires |processes| < |ps| == MAX_NUMBER_PROCESSES && |tasks| < |ts|
    requires s.numProcesses == |processes| && s.processes == TableOf(ps, processes, tasks)
    requires s.tasks == TaskArray(ts, tasks)[..|tasks| + 1]
    requires s.cur == s.tasksFinished == 0 && s.curProcess == s.tasks[0].pid && s.retired == s.stress == 0
    ensures Loaded(s, processes, tasks, ps)
  {
  }

  /** Parsing the text of a well-formed plan (parse_plan.c:25-39) */
  method LoadPlan(
      p: Plan, text: string, ghost processes: seq<ProcessLine>, ghost tasks: seq<TaskLine>, ghost tail: string)
    returns (ok: bool)
    requires p.Sized() && p.instructionsRetired == p.stress == 0
    requires WellFormed(processes, tasks) && ';' !in tail && text == PrintPlan(processes, tasks) + tail
    modifies p, p.tasks, p.processes
    ensures ok && p.Valid() && p.end == |tasks|
    ensures Loaded(p.View(), processes, tasks, old(p.processes[..]))
    ensures StoresTasks(p.tasks[..], tasks, old(p.tasks[..]))
    ensures p.lateness == old(p.lateness) && p.instructionsPlanned == SumPlanned(tasks)
    ensures p.tickCounter == 0 && p.status == old(p.status)
  {
    ghost var n, ps, ts := p.numProcesses, p.processes[..], p.tasks[..];
    ok := ParsePlanText(p, text);
    PlanRoundTrip(processes, tasks, tail, n, ps, ts);
    HeldIsLoaded(p.View(), processes, tasks, ps, ts);
    LoadedIsShaped(p.View(), processes, tasks, ps);
    LengthOfStored(TaskArray(ts, tasks), tasks);
  }

  /** How long the run of a loaded plan takes. */
  lemma LoadedPlanTicks(
      start: State, n: nat, processes: seq<ProcessLine>, tasks: seq<TaskLine>, ps: seq<Process>)
    requires WellFormed(processes, tasks) && Loaded(start, processes, tasks, ps) && start.status != PlanFinished
    requires Inv(start) && n <= Potential(start) && Run(start, n).Current().End()
    ensures n <= LineTicks(tasks) && (Run(start, n).status != PlanFinished ==> n == LineTicks(tasks))
  {
    BudgetOfLoaded(start, processes, tasks, ps);
    if Run(start, n).status != PlanFinished { UnmarkedEndIsExact(start, n); }
  }

  lemma LoadedEntries(start: State, processes: seq<ProcessLine>, tasks: seq<TaskLine>, ps: seq<Process>)
    requires WellFormed(processes, tasks) && Loaded(start, processes, tasks, ps)
    ensures StartsAs(start.tasks, tasks)
  {
  }

  lemma EndIsLast(r: State)
    requires Inv(r)
    ensures |r.tasks| > 0 && r.tasks[|r.tasks| - 1].id == -2
  {
  }

  /** What the run of a loaded plan leaves behind. */
  lemma LoadedPlanTasks(start: State, n: nat, r: State, tasks: seq<TaskLine>)
    requires StartsAs(start.tasks, tasks) && Inv(start) && r == Run(start, n) && r.Current().End()
    ensures AllRun(r.tasks, tasks) && r.tasksFinished == Total(TaskCount, r.tasks)
  {
    EverythingFinishedAtTheEnd(start, n);
    EndIsLast(r);
    RunOfLoaded(start.tasks, r.tasks, tasks);
  }

  /** The hundred ticks after the end (main.c:598-600) change nothing. */
  method IdleTicks(p: Plan)
    requires p.Valid() && p.View().Current().End()
    modifies p, p.tasks, p.processes, p.signals, p.signals.ring
    ensures p.Valid() && p.View() == old(p.View())
  {
    ghost var end := p.View();
    for i := 0 to 100
      invariant p.Valid() && p.View() == end
    {
      p.RunTimerTick();
    }
  }

  /**
   * full_run (main.c:582-603): the text is parsed into a zeroed plan and ticked to its sentinel. It takes
   * at most the ticks of its lines, and exactly these unless the plan was marked as finished on the way.
   */
  method RunPlanText(
      text: string, ghost processes: seq<ProcessLine>, ghost tasks: seq<TaskLine>, ghost tail: string)
    returns (p: Plan)
    requires WellFormed(processes, tasks) && ';' !in tail && text == PrintPlan(processes, tasks) + tail
    ensures fresh(p) && p.Valid() && p.View().Current().End()
    ensures p.tickCounter <= LineTicks(tasks)
    ensures p.status != PlanFinished ==> p.tickCounter == LineTicks(tasks)
    ensures AllRun(p.View().tasks, tasks) && p.tasksFinished == Total(TaskCount, p.View().tasks)
  {
    p := new Plan();
    ghost var ps := p.processes[..];
    var ok := LoadPlan(p, text, processes, tasks, tail);
    ghost var start := p.View();
    LoadedIsFresh(start, processes, tasks, ps);
    FreshInv(start);
    ghost var n := RunToSentinel(p);
    LoadedPlanTicks(start, n, processes, tasks, ps);
    LoadedEntries(start, processes, tasks, ps);
    LoadedPlanTasks(start, n, p.View(), tasks);
    IdleTicks(p);
  }

  lemma BudgetOfLoaded(s: State, processes: seq<ProcessLine>, tasks: seq<TaskLine>, ps: seq<Process>)
    requires WellFormed(processes, tasks) && Loaded(s, processes, tasks, ps)
    ensures Fresh(s) && Potential(s) == LineTicks(tasks)
  {
    LoadedIsFresh(s, processes, tasks, ps);
    BudgetOfUntouched(s.tasks);
    LineTicksAreTheBudget(s.tasks, tasks);
    assert s.tasks[0..] == s.tasks;
  }
}
