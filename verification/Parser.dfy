/**
 * parse_plan on the plan's arrays (parse_plan.c). A pointer into the text is what is left of the
 * text there. A result `ok == false` stands for the inputs on which the program reads behind the
 * text or writes outside its arrays.
 */
module Parser {
  import opened Config
  import opened Entities
  import opened Numbers
  import opened PlanText
  import opened Scheduler

  /** parse_next_number (parse_plan.c:185-193) */
  method ParseNextNumber(str: string) returns (ok: bool, value: int, rest: string)
    ensures ok <==> ParseNumber(str).Ok?
    ensures ok ==> ParseNumber(str) == Ok(value, rest)
  {
    var cur := str;
    while cur != "" && !IsSeparator(cur[0])
      invariant HasSeparator(cur) <==> HasSeparator(str)
      decreases |cur|
    {
      cur := cur[1..];
    }
    if cur == "" {
      return false, 0, "";
    }
    var read := Strtoll(str);
    return true, read.0, read.1;
  }

  /** A number and a step over the character behind it. */
  method ParseNextField(str: string) returns (ok: bool, value: int, rest: string)
    ensures ok <==> ParseField(str).Ok?
    ensures ok ==> ParseField(str) == Ok(value, rest)
  {
    ok, value, rest := ParseNextNumber(str);
    if !ok || rest == "" {
      return false, 0, "";
    }
    rest := rest[1..];
  }

  /** parse_next_process (parse_plan.c:177-182) into a freshly set up process (parse_plan.c:80-88) */
  method ParseNextProcess(str: string) returns (ok: bool, process: Process, rest: string)
    ensures ok <==> ParseProcess(str).Ok?
    ensures ok ==> ParseProcess(str) == Ok(process, rest)
  {
    process := Process(0, 0, 0, 0, 0, 0);
    var pid, buffer;
    ok, pid, rest := ParseNextField(str);
    if ok {
      ok, buffer, rest := ParseNextField(rest);
      process := process.(pid := pid, buffer := buffer);
    }
  }

  /** Where the loop of parse_meta stands: `read` is stored, the rest starts at `cur`. */
  ghost predicate MetaRead(
      goal: Parsed<(int, seq<Process>)>, read: seq<Process>, cur: string, counted: bool, n: int) {
    goal == After(read, MetaLoop(cur, counted, n))
  }

  lemma MetaReadStarts(text: string, n: int)
    ensures MetaRead(MetaLoop(text, false, n), [], text, false, n)
  {
    AfterNothing(MetaLoop(text, false, n));
  }

  lemma MetaReadCount(goal: Parsed<(int, seq<Process>)>, read: seq<Process>, cur: string, n: int)
    requires MetaRead(goal, read, cur, false, n) && AtNumber(cur)
    ensures ParseField(cur).Err? ==> goal.Err?
    ensures ParseField(cur).Ok? ==> MetaRead(goal, read, ParseField(cur).rest, true, ParseField(cur).value)
  {
  }

  lemma MetaReadStep(
      goal: Parsed<(int, seq<Process>)>, read: seq<Process>, cur: string, counted: bool, n: int,
      x: Process, cur': string)
    requires MetaRead(goal, read, cur, counted, n)
    requires !(AtNumber(cur) && !counted) && !AtMetaEnd(cur)
    requires ParseProcess(cur) == Ok(x, cur')
    ensures MetaRead(goal, read + [x], cur', counted, n)
  {
    MetaLoopStep(cur, counted, n);
    AfterAfter(read, x, MetaLoop(cur', counted, n));
  }

  lemma MetaReadFails(goal: Parsed<(int, seq<Process>)>, read: seq<Process>, cur: string, counted: bool, n: int)
    requires MetaRead(goal, read, cur, counted, n)
    requires !(AtNumber(cur) && !counted) && !AtMetaEnd(cur)
    requires ParseProcess(cur).Err?
    ensures goal.Err?
  {
    MetaLoopStep(cur, counted, n);
  }

  lemma MetaReadEnds(goal: Parsed<(int, seq<Process>)>, read: seq<Process>, cur: string, counted: bool, n: int)
    requires MetaRead(goal, read, cur, counted, n)
    requires !(AtNumber(cur) && !counted) && AtMetaEnd(cur)
    ensures goal == Ok((n, read), cur[2..])
  {
    assert read + [] == read;
  }

  lemma TooManyProcesses(goal: Parsed<(int, seq<Process>)>, read: seq<Process>, cur: string, counted: bool, n: int)
    requires MetaRead(goal, read, cur, counted, n)
    ensures goal.Err? || |goal.value.1| >= |read|
  {
  }

  lemma OverlaidStep<T>(read: seq<T>, x: T, was: seq<T>)
    requires |read| < |was|
    ensures Overlaid(read + [x], was) == Overlaid(read, was)[|read| := x]
  {
  }

  /** The loop of parse_meta (parse_plan.c:61-91); it fails also when there are too many processes. */
  method ParseMetaLoop(p: Plan, text: string) returns (ok: bool, cur: string, ghost read: seq<Process>)
    requires p.Sized()
    modifies p`numProcesses, p.processes
    ensures ok ==> |read| <= p.processes.Length && p.processes[..] == Overlaid(read, old(p.processes[..]))
    ensures ok ==> MetaLoop(text, false, old(p.numProcesses)) == Ok((p.numProcesses, read), cur)
    ensures !ok ==> MetaLoop(text, false, old(p.numProcesses)).Err? ||
                    |MetaLoop(text, false, old(p.numProcesses)).value.1| > MAX_NUMBER_PROCESSES
  {
    ghost var was, goal := p.processes[..], MetaLoop(text, false, p.numProcesses);
    MetaReadStarts(text, p.numProcesses);
    var counted, i := false, 0;
    cur, read := text, [];
    while true
      modifies p`numProcesses, p.processes
      invariant |read| == i <= MAX_NUMBER_PROCESSES
      invariant p.processes[..] == Overlaid(read, was)
      invariant MetaRead(goal, read, cur, counted, p.numProcesses)
      decreases |cur|
    {
      ghost var from := cur;
      if AtNumber(cur) && !counted {
        MetaReadCount(goal, read, cur, p.numProcesses);
        var count;
        ok, count, cur := ParseNextField(cur);
        if !ok { return; }
        p.numProcesses := count;
        counted := true;
      } else if AtMetaEnd(cur) {
        MetaReadEnds(goal, read, cur, counted, p.numProcesses);
        cur := cur[2..];
        return true, cur, read;
      } else {
        var process;
        ok, process, cur := ParseNextProcess(cur);
        if !ok {
          MetaReadFails(goal, read, from, counted, p.numProcesses);
          return;
        }
        MetaReadStep(goal, read, from, counted, p.numProcesses, process, cur);
        if i == MAX_NUMBER_PROCESSES {
          TooManyProcesses(goal, read + [process], cur, counted, p.numProcesses);
          return false, cur, read;
        }
        p.processes[i] := process;
        OverlaidStep(read, process, was);
        read := read + [process];
        i := i + 1;
      }
    }
  }

  /** parse_meta (parse_plan.c:48-97) */
  method ParseMetaSection(p: Plan, text: string) returns (ok: bool, cur: string)
    requires p.Sized()
    modifies p`numProcesses, p.processes
    ensures ok <==> ParseMeta(text, old(p.numProcesses), old(p.processes[..])).Ok?
    ensures ok ==>
              ParseMeta(text, old(p.numProcesses), old(p.processes[..])) == Ok((p.numProcesses, p.processes[..]), cur)
  {
    ghost var read;
    ok, cur, read := ParseMetaLoop(p, text);
    if ok {
      ok := 0 <= p.numProcesses < MAX_NUMBER_PROCESSES;
    }
    if ok {
      p.processes[p.numProcesses] := EndProcess(p.processes[p.numProcesses]);
    }
  }

  /** count_tasks (parse_plan.c:153-162) */
  method CountTasks(text: string) returns (n: nat)
    ensures n == CountSemicolons(text)
  {
    n := 0;
    var cur := text;
    while cur != ""
      invariant n + CountSemicolons(cur) == CountSemicolons(text)
      decreases |cur|
    {
      if cur[0] == ';' {
        n := n + 1;
      }
      cur := cur[1..];
    }
  }

  /** The four numbers of a task (parse_plan.c:130, 135, 138, 143). */
  method ParseLine(str: string) returns (ok: bool, line: TaskLine, rest: string)
    ensures ok <==> ParseTaskLine(str).Ok?
    ensures ok ==> ParseTaskLine(str) == Ok(line, rest)
  {
    line := TaskLine(0, 0, 0, 0);
    var pid, id, planned, actual;
    ok, pid, rest := ParseNextField(str);
    if !ok { return; }
    ok, id, rest := ParseNextField(rest);
    if !ok { return; }
    ok, planned, rest := ParseNextField(rest);
    if !ok { return; }
    ok, actual, rest := ParseNextField(rest);
    line := TaskLine(pid, id, planned, actual);
  }

  /** parse_next_task (parse_plan.c:122-149) */
  method ParseNextTask(p: Plan, index: nat, str: string) returns (ok: bool, rest: string)
    requires p.Sized() && index < MAX_NUMBER_TASKS_IN_PLAN
    modifies p.tasks, p.processes
    ensures ok <==> ParseTask(str, old(p.processes[..])).Ok?
    ensures ok ==> ParseTask(str, old(p.processes[..])) == Ok((p.tasks[index], p.processes[..]), rest)
    ensures ok ==> p.tasks[..] == old(p.tasks[..])[index := p.tasks[index]]
    ensures ok ==> ParseTaskLine(str).Ok? && ReadAs(p.tasks[index], ParseTaskLine(str).value)
  {
    var line;
    ok, line, rest := ParseLine(str);
    if !ok || (line.pid != -1 && !(0 <= line.pid < MAX_NUMBER_PROCESSES)) {
      return false, rest;
    }
    CreditProcess(p, line);
    p.tasks[index] := CreateTask(line.id, line.pid, line.planned, line.actual);
  }

  /** The counters that a task adds to (parse_plan.c:131-133, 139-141) */
  method CreditProcess(p: Plan, line: TaskLine)
    requires p.processes.Length == MAX_NUMBER_PROCESSES
    requires line.pid == -1 || 0 <= line.pid < MAX_NUMBER_PROCESSES
    modifies p.processes
    ensures p.processes[..] == Credited(old(p.processes[..]), line)
  {
    if line.pid != -1 {
      var process := p.processes[line.pid].(tasksRemaining := p.processes[line.pid].tasksRemaining + 1);
      p.processes[line.pid] := process.(planLength := process.planLength + line.planned);
    }
  }

  /** Where the loop of parse_tasks stands: of `n` tasks the front `read` is stored, the rest starts at `cur`. */
  ghost predicate TasksRead(
      goal: Parsed<(seq<Process>, seq<Task>)>, n: nat, read: seq<Task>, cur: string, ps: seq<Process>) {
    |read| <= n && goal == After(read, TasksLoop(cur, n - |read|, ps))
  }

  lemma TasksReadStarts(text: string, n: nat, ps: seq<Process>)
    ensures TasksRead(TasksLoop(text, n, ps), n, [], text, ps)
  {
    var none: seq<Task> := [];
    SameCount(text, n - |none|, n, ps);
    AfterNothing(TasksLoop(text, n, ps));
  }

  lemma TasksReadStep(
      goal: Parsed<(seq<Process>, seq<Task>)>, n: nat, read: seq<Task>, cur: string, ps: seq<Process>,
      x: Task, cur': string, ps': seq<Process>)
    requires TasksRead(goal, n, read, cur, ps) && |read| < n
    requires ParseTask(cur, ps) == Ok((x, ps'), cur')
    ensures TasksRead(goal, n, read + [x], cur', ps')
  {
    var left := n - |read + [x]|;
    TasksLoopStep(cur, n - |read|, ps);
    SameCount(cur', n - |read| - 1, left, ps');
    AfterAfter(read, x, TasksLoop(cur', left, ps'));
  }

  lemma TasksReadFails(
      goal: Parsed<(seq<Process>, seq<Task>)>, n: nat, read: seq<Task>, cur: string, ps: seq<Process>)
    requires TasksRead(goal, n, read, cur, ps) && |read| < n
    requires ParseTask(cur, ps).Err?
    ensures goal.Err?
  {
    TasksLoopStep(cur, n - |read|, ps);
  }

  lemma TasksReadEnds(goal: Parsed<(seq<Process>, seq<Task>)>, read: seq<Task>, cur: string, ps: seq<Process>)
    requires TasksRead(goal, |read|, read, cur, ps)
    ensures goal == Ok((ps, read), cur)
  {
    assert read + [] == read;
  }

  /** The loop of parse_tasks (parse_plan.c:105-109) */
  method ParseAllTasks(p: Plan, text: string, n: nat) returns (ok: bool, ghost read: seq<Task>)
    requires p.Sized()
    modifies p.tasks, p.processes
    ensures !ok ==> n > MAX_NUMBER_TASKS_IN_PLAN || TasksLoop(text, n, old(p.processes[..])).Err?
    ensures ok ==> |read| == n <= MAX_NUMBER_TASKS_IN_PLAN && p.tasks[..] == Overlaid(read, old(p.tasks[..]))
    ensures ok ==> TasksLoop(text, n, old(p.processes[..])).Ok?
    ensures ok ==> TasksLoop(text, n, old(p.processes[..])).value == (p.processes[..], read)
  {
    ghost var was, ps := p.tasks[..], p.processes[..];
    ghost var goal := TasksLoop(text, n, ps);
    TasksReadStarts(text, n, ps);
    var i, cur := 0, text;
    read := [];
    while i < n
      modifies p.tasks, p.processes
      invariant |read| == i <= n && i <= MAX_NUMBER_TASKS_IN_PLAN
      invariant p.tasks[..] == Overlaid(read, was) && p.processes[..] == ps
      invariant TasksRead(goal, n, read, cur, ps)
    {
      if i == MAX_NUMBER_TASKS_IN_PLAN {
        return false, read;
      }
      ghost var from, before := cur, ps;
      ok, cur := ParseNextTask(p, i, cur);
      if !ok {
        TasksReadFails(goal, n, read, from, before);
        return;
      }
      ps := p.processes[..];
      OverlaidStep(read, p.tasks[i], was);
      TasksReadStep(goal, n, read, from, before, p.tasks[i], cur, ps);
      read := read + [p.tasks[i]];
      i := i + 1;
    }
    TasksReadEnds(goal, read, cur, ps);
    ok := true;
  }

  /** parse_tasks (parse_plan.c:99-113) */
  method ParseTaskSection(p: Plan, text: string) returns (ok: bool)
    requires p.Sized()
    modifies p`numTasks, p.tasks, p.processes
    ensures ok <==> ParseTasks(text, old(p.processes[..]), old(p.tasks[..])).Ok?
    ensures ok ==> ParseTasks(text, old(p.processes[..]), old(p.tasks[..])).value == (p.processes[..], p.tasks[..])
    ensures ok ==> 0 <= p.numTasks == CountSemicolons(text) < p.tasks.Length && p.tasks[p.numTasks].id == -2
  {
    var n := CountTasks(text);
    p.numTasks := n;
    ghost var read;
    ok, read := ParseAllTasks(p, text, n);
    if ok {
      ok := n < MAX_NUMBER_TASKS_IN_PLAN;
    }
    if ok {
      p.tasks[n] := p.tasks[n].(id := -2, pid := -2);
    }
  }

  /** calculate_length_plan (plan.c:145-154) on an array that holds an end mark */
  method LengthOfPlan(p: Plan, ghost end: nat) returns (sum: int)
    requires end < p.tasks.Length && p.tasks[end].id == -2
    ensures sum == LengthUntilEnd(p.tasks[..])
  {
    sum := 0;
    var i := 0;
    assert p.tasks[0..] == p.tasks[..];
    while p.tasks[i].id != -2
      invariant 0 <= i <= end
      invariant sum + LengthUntilEnd(p.tasks[i..]) == LengthUntilEnd(p.tasks[..])
      decreases end - i
    {
      assert p.tasks[i..][1..] == p.tasks[i + 1..];
      sum := sum + p.tasks[i].planned;
      i := i + 1;
    }
  }

  /** Parsing succeeds exactly if the text has a plan, and then the arrays hold that plan. */
  ghost predicate HoldsPlan(goal: Parsed<ParsedPlan>, ok: bool, held: ParsedPlan) {
    && (ok <==> goal.Ok?)
    && (ok ==> goal.value == held && 0 <= held.numTasks < |held.tasks| && held.tasks[held.numTasks].id == -2)
  }

  ghost function Held(p: Plan): ParsedPlan
    reads p, p.processes, p.tasks
  {
    ParsedPlan(p.numProcesses, p.numTasks, p.processes[..], p.tasks[..])
  }

  /** The two sections of a plan's text (parse_plan.c:28-29) */
  method ParseSections(p: Plan, text: string) returns (ok: bool)
    requires p.Sized()
    modifies p`numProcesses, p`numTasks, p.tasks, p.processes
    ensures HoldsPlan(ParsePlan(text, old(p.numProcesses), old(p.processes[..]), old(p.tasks[..])), ok, Held(p))
  {
    var cur;
    ghost var n, ps, ts := p.numProcesses, p.processes[..], p.tasks[..];
    ok, cur := ParseMetaSection(p, text);
    if ok {
      ghost var m, qs := p.numProcesses, p.processes[..];
      ok := ParseTaskSection(p, cur);
      ParsePlanInParts(text, n, ps, ts, m, qs, cur);
    }
  }

  /** The cursor is put on the first entry (parse_plan.c:31-37). */
  method StartPlan(p: Plan)
    requires p.Sized() && 0 <= p.numTasks < p.tasks.Length && p.tasks[p.numTasks].id == -2
    modifies p
    ensures p.Sized() && p.signals.history == old(p.signals.history) && Held(p) == old(Held(p))
    ensures unchanged(p`lateness, p`instructionsRetired, p`status, p`stress)
    ensures p.end == p.numTasks && p.curTask == p.indexCurTask == p.tasksFinished == p.tickCounter == 0
    ensures p.curProcess == p.tasks[0].pid && p.instructionsPlanned == LengthUntilEnd(p.tasks[..])
  {
    p.end := p.numTasks;
    p.indexCurTask, p.tasksFinished, p.curTask := 0, 0, 0;
    p.curProcess := p.tasks[0].pid;
    p.tickCounter := 0;
    p.instructionsPlanned := LengthOfPlan(p, p.end);
  }

  /** parse_plan (parse_plan.c:25-39) */
  method ParsePlanText(p: Plan, text: string) returns (ok: bool)
    requires p.Sized()
    modifies p, p.tasks, p.processes
    ensures p.Sized() && p.signals.history == old(p.signals.history)
    ensures unchanged(p`lateness, p`instructionsRetired, p`status, p`stress)
    ensures HoldsPlan(ParsePlan(text, old(p.numProcesses), old(p.processes[..]), old(p.tasks[..])), ok, Held(p))
    ensures ok ==> p.end == p.numTasks
    ensures ok ==> p.curTask == p.indexCurTask == p.tasksFinished == p.tickCounter == 0
    ensures ok ==> p.curProcess == p.tasks[0].pid && p.instructionsPlanned == LengthUntilEnd(p.tasks[..])
  {
    ok := ParseSections(p, text);
    if ok {
      StartPlan(p);
    }
  }

  /** number_processes_in_plan (plan.c:113-121): the place of the first end mark */
  method NumberProcessesInPlan(p: Plan, ghost mark: nat) returns (n: nat)
    requires p.Sized() && mark < MAX_NUMBER_PROCESSES && p.processes[mark].pid == -2
    ensures n <= mark && p.processes[n].pid == -2
    ensures forall i :: 0 <= i < n ==> p.processes[i].pid != -2
  {
    n := 0;
    while p.processes[n].pid != -2
      invariant n <= mark
      invariant forall i :: 0 <= i < n ==> p.processes[i].pid != -2
      decreases mark - n
    {
      n := n + 1;
    }
  }
}
