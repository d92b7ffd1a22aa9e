/** What parse_plan makes of a text (parse_plan.c), and the texts it is meant for. */
module PlanText {
  import opened Config
  import opened Entities
  import opened Numbers

  // ----- parsing, on the part of the text that is left -----

  /** A number and the one character behind it. */
  function ParseField(t: string): (r: Parsed<int>)
    ensures r.Ok? ==> |r.rest| < |t|
  {
    var (value, rest) :- ParseNumber(t);
    if rest == "" then Err else Ok(value, rest[1..])
  }

  /** A process as parse_meta sets it up (parse_plan.c:80-88). */
  function NewProcess(pid: int, buffer: int): Process {
    Process(pid, 0, buffer, 0, 0, 0)
  }

  /** parse_next_process (parse_plan.c:177-182) */
  function ParseProcess(t: string): (r: Parsed<Process>)
    ensures r.Ok? ==> |r.rest| < |t|
  {
    var (pid, t1) :- ParseField(t);
    var (buffer, t2) :- ParseField(t1);
    Ok(NewProcess(pid, buffer), t2)
  }

  predicate AtNumber(t: string) {
    t == "" || !IsSeparator(t[0])
  }

  predicate AtMetaEnd(t: string) {
    |t| >= 2 && t[0] == ';' && t[1] == ';'
  }

  /** A result with a list of which the front was read before. */
  function After<A, B>(front: seq<B>, r: Parsed<(A, seq<B>)>): Parsed<(A, seq<B>)> {
    if r.Err? then Err else Ok((r.value.0, front + r.value.1), r.rest)
  }

  lemma AfterAfter<A, B>(front: seq<B>, x: B, r: Parsed<(A, seq<B>)>)
    ensures After(front, After([x], r)) == After(front + [x], r)
  {
    if r.Ok? {
      assert front + ([x] + r.value.1) == front + [x] + r.value.1;
    }
  }

  lemma AfterNothing<A, B>(r: Parsed<(A, seq<B>)>)
    ensures After([], r) == r
  {
    if r.Ok? {
      assert [] + r.value.1 == r.value.1;
    }
  }

  /**
   * The loop of parse_meta (parse_plan.c:61-91): the count of processes, `n` if there is none, and the
   * processes read.
   */
  function MetaLoop(t: string, counted: bool, n: int): (r: Parsed<(int, seq<Process>)>)
    decreases |t|
  {
    if AtNumber(t) && !counted then
      var (count, t1) :- ParseField(t);
      MetaLoop(t1, true, count)
    else if AtMetaEnd(t) then
      Ok((n, []), t[2..])
    else
      var (process, t1) :- ParseProcess(t);
      After([process], MetaLoop(t1, counted, n))
  }

  /** One more process of the meta section. */
  lemma MetaLoopStep(t: string, counted: bool, n: int)
    requires !(AtNumber(t) && !counted) && !AtMetaEnd(t)
    ensures MetaLoop(t, counted, n) ==
            var p := ParseProcess(t); if p.Err? then Err else After([p.value], MetaLoop(p.rest, counted, n))
  {
  }

  /** An array whose first entries were overwritten. */
  function Overlaid<T>(front: seq<T>, before: seq<T>): (r: seq<T>)
    requires |front| <= |before|
    ensures |r| == |before|
  {
    front + before[|front|..]
  }

  /** parse_meta (parse_plan.c:48-97) */
  function ParseMeta(t: string, n: int, ps: seq<Process>): (r: Parsed<(int, seq<Process>)>)
    ensures r.Ok? ==> |r.value.1| == |ps|
  {
    var (meta, rest) :- MetaLoop(t, false, n);
    if |meta.1| <= |ps| && 0 <= meta.0 < |ps|
    then Ok((meta.0, Overlaid(meta.1, ps)[meta.0 := EndProcess(Overlaid(meta.1, ps)[meta.0])]), rest)
    else Err
  }

  /** The mark behind the processes (parse_plan.c:93-95). */
  function EndProcess(p: Process): Process {
    p.(pid := -2, buffer := -2, planLength := 0)
  }

  /** count_tasks (parse_plan.c:153-162) */
  function CountSemicolons(t: string): nat {
    if t == "" then 0 else (if t[0] == ';' then 1 else 0) + CountSemicolons(t[1..])
  }

  /** A task's share in its process (parse_plan.c:131-133, 139-141). */
  function AddTask(p: Process, planned: int): Process {
    p.(tasksRemaining := p.tasksRemaining + 1, planLength := p.planLength + planned)
  }

  /** A line of the plan as it is read and printed. */
  datatype TaskLine = TaskLine(pid: int, id: int, planned: int, actual: int)

  /** The four numbers of a task (parse_plan.c:130, 135, 138, 143). */
  function ParseTaskLine(t: string): (r: Parsed<TaskLine>)
    ensures r.Ok? ==> |r.rest| < |t|
  {
    var (pid, t1) :- ParseField(t);
    var (id, t2) :- ParseField(t1);
    var (planned, t3) :- ParseField(t2);
    var (actual, t4) :- ParseField(t3);
    Ok(TaskLine(pid, id, planned, actual), t4)
  }

  function TaskOf(t: TaskLine): Task {
    CreateTask(t.id, t.pid, t.planned, t.actual)
  }

  /** The entry that a line stands for, field by field. */
  predicate ReadAs(t: Task, line: TaskLine) {
    t.id == line.id && t.pid == line.pid && t.planned == line.planned && t.actual == line.actual && Untouched(t)
  }

  /** The process table with one more task credited. */
  function Credited(ps: seq<Process>, t: TaskLine): (r: seq<Process>)
    ensures |r| == |ps|
  {
    if 0 <= t.pid < |ps| then ps[t.pid := AddTask(ps[t.pid], t.planned)] else ps
  }

  /** parse_next_task (parse_plan.c:122-149) */
  function ParseTask(t: string, ps: seq<Process>): (r: Parsed<(Task, seq<Process>)>)
    ensures r.Ok? ==> |r.value.1| == |ps|
  {
    var (line, rest) :- ParseTaskLine(t);
    if line.pid == -1 || 0 <= line.pid < |ps| then Ok((TaskOf(line), Credited(ps, line)), rest) else Err
  }

  /** The loop of parse_tasks (parse_plan.c:105-109): the process table and the tasks read. */
  function TasksLoop(t: string, remaining: nat, ps: seq<Process>): (r: Parsed<(seq<Process>, seq<Task>)>)
    ensures r.Ok? ==> |r.value.0| == |ps| && |r.value.1| == remaining
    decreases remaining
  {
    if remaining == 0 then Ok((ps, []), t)
    else
      var (task, t1) :- ParseTask(t, ps);
      After([task.0], TasksLoop(t1, remaining - 1, task.1))
  }

  /** One more task of the tasks section. */
  lemma TasksLoopStep(t: string, remaining: nat, ps: seq<Process>)
    requires remaining > 0
    ensures TasksLoop(t, remaining, ps) ==
            var p := ParseTask(t, ps);
            if p.Err? then Err else After([p.value.0], TasksLoop(p.rest, remaining - 1, p.value.1))
  {
  }

  lemma SameCount(t: string, m: nat, n: nat, ps: seq<Process>)
    requires m == n
    ensures TasksLoop(t, m, ps) == TasksLoop(t, n, ps)
  {
  }

  /** parse_tasks (parse_plan.c:99-113) */
  function ParseTasks(t: string, ps: seq<Process>, ts: seq<Task>): (r: Parsed<(seq<Process>, seq<Task>)>)
    ensures r.Ok? ==> |r.value.0| == |ps| && |r.value.1| == |ts| && CountSemicolons(t) < |ts|
  {
    var n := CountSemicolons(t);
    var (tasks, rest) :- TasksLoop(t, n, ps);
    if n < |ts|
    then Ok((tasks.0, Overlaid(tasks.1, ts)[n := ts[n].(id := -2, pid := -2)]), rest)
    else Err
  }

  /** What parse_plan stores, given what the plan held before (parse_plan.c:25-39). */
  datatype ParsedPlan = ParsedPlan(numProcesses: int, numTasks: int, processes: seq<Process>, tasks: seq<Task>)

  function ParsePlan(text: string, n: int, ps: seq<Process>, ts: seq<Task>): Parsed<ParsedPlan> {
    var (meta, t1) :- ParseMeta(text, n, ps);
    var (tasks, t2) :- ParseTasks(t1, meta.1, ts);
    Ok(ParsedPlan(meta.0, CountSemicolons(t1), tasks.0, tasks.1), t2)
  }

  lemma ParsePlanInParts(
      text: string, n: int, ps: seq<Process>, ts: seq<Task>, m: int, qs: seq<Process>, rest: string)
    requires ParseMeta(text, n, ps) == Ok((m, qs), rest)
    ensures ParsePlan(text, n, ps, ts).Ok? <==> ParseTasks(rest, qs, ts).Ok?
    ensures ParseTasks(rest, qs, ts).Ok? ==>
              ParsePlan(text, n, ps, ts).value ==
              ParsedPlan(m, CountSemicolons(rest), ParseTasks(rest, qs, ts).value.0, ParseTasks(rest, qs, ts).value.1)
  {
  }

  // ----- printing -----

  datatype ProcessLine = ProcessLine(pid: int, buffer: int)

  function Field(x: int, end: char): string {
    PrintNumber(x) + [end]
  }

  function PrintProcess(p: ProcessLine): string {
    Field(p.pid, ',') + Field(p.buffer, ';')
  }

  function PrintProcesses(ps: seq<ProcessLine>): string {
    if ps == [] then "" else PrintProcess(ps[0]) + PrintProcesses(ps[1..])
  }

  function PrintTask(t: TaskLine): string {
    Field(t.pid, ',') + Field(t.id, ',') + Field(t.planned, ',') + Field(t.actual, ';')
  }

  function PrintTasks(ts: seq<TaskLine>): string {
    if ts == [] then "" else PrintTask(ts[0]) + PrintTasks(ts[1..])
  }

  /** The text of a plan: `n;pid,buf;...;;;pid,tid,planned,real;...` */
  function PrintPlan(ps: seq<ProcessLine>, ts: seq<TaskLine>): string {
    Field(|ps|, ';') + (PrintProcesses(ps) + (";;" + PrintTasks(ts)))
  }

  predicate LongProcess(p: ProcessLine) {
    InLong(p.pid) && InLong(p.buffer)
  }

  predicate LongTask(t: TaskLine, n: int) {
    (t.pid == -1 || 0 <= t.pid < n) && InLong(t.id) && InLong(t.planned) && InLong(t.actual)
  }

  // ----- round trip -----

  lemma Assoc(a: string, b: string, c: string)
    ensures (a + b) + c == a + (b + c)
  {
  }

  lemma FieldRoundTrip(x: int, end: char, rest: string)
    requires InLong(x) && IsSeparator(end)
    ensures ParseField(Field(x, end) + rest) == Ok(x, rest)
  {
    var behind := [end] + rest;
    assert Field(x, end) + rest == PrintNumber(x) + behind;
    NumberRoundTrip(x, behind);
    assert behind[1..] == rest;
  }

  lemma ProcessRoundTrip(p: ProcessLine, rest: string)
    requires LongProcess(p)
    ensures ParseProcess(PrintProcess(p) + rest) == Ok(NewProcess(p.pid, p.buffer), rest)
    ensures !AtMetaEnd(PrintProcess(p) + rest)
  {
    Assoc(Field(p.pid, ','), Field(p.buffer, ';'), rest);
    FieldRoundTrip(p.pid, ',', Field(p.buffer, ';') + rest);
    FieldRoundTrip(p.buffer, ';', rest);
    PrintNatIsDecimal(if p.pid < 0 then -p.pid else p.pid);
    assert (PrintProcess(p) + rest)[0] == PrintNumber(p.pid)[0];
  }

  function ProcessesOf(lines: seq<ProcessLine>): (r: seq<Process>)
    ensures |r| == |lines|
    ensures forall i :: 0 <= i < |r| ==> r[i] == NewProcess(lines[i].pid, lines[i].buffer)
  {
    seq(|lines|, i requires 0 <= i < |lines| => NewProcess(lines[i].pid, lines[i].buffer))
  }

  lemma MetaLoopEnds(rest: string, n: int)
    ensures MetaLoop("" + (";;" + rest), true, n) == Ok((n, []), rest)
  {
    var t := "" + (";;" + rest);
    assert t == ";;" + rest && AtMetaEnd(t) && t[2..] == rest;
  }

  lemma {:induction false} MetaLoopRoundTrip(lines: seq<ProcessLine>, rest: string, n: int)
    requires forall i :: 0 <= i < |lines| ==> LongProcess(lines[i])
    ensures MetaLoop(PrintProcesses(lines) + (";;" + rest), true, n) == Ok((n, ProcessesOf(lines)), rest)
    decreases |lines|
  {
    if lines == [] {
      MetaLoopEnds(rest, n);
    } else {
      var behind := PrintProcesses(lines[1..]) + (";;" + rest);
      var t := PrintProcess(lines[0]) + behind;
      Assoc(PrintProcess(lines[0]), PrintProcesses(lines[1..]), ";;" + rest);
      ProcessRoundTrip(lines[0], behind);
      MetaLoopStep(t, true, n);
      MetaLoopRoundTrip(lines[1..], rest, n);
      assert ProcessesOf(lines) == [NewProcess(lines[0].pid, lines[0].buffer)] + ProcessesOf(lines[1..]);
    }
  }

  /** The count of processes comes first. */
  lemma MetaStartRoundTrip(lines: seq<ProcessLine>, rest: string, n: int)
    requires |lines| <= LONG_MAX && forall i :: 0 <= i < |lines| ==> LongProcess(lines[i])
    ensures MetaLoop(Field(|lines|, ';') + (PrintProcesses(lines) + (";;" + rest)), false, n) ==
            Ok((|lines|, ProcessesOf(lines)), rest)
  {
    var behind := PrintProcesses(lines) + (";;" + rest);
    FieldRoundTrip(|lines|, ';', behind);
    PrintNatIsDecimal(|lines|);
    assert (Field(|lines|, ';') + behind)[0] == PrintNumber(|lines|)[0];
    MetaLoopRoundTrip(lines, rest, |lines|);
  }

  /** The process table after the meta section: the processes, and the end mark behind them. */
  function MetaTable(ps: seq<Process>, lines: seq<ProcessLine>): (r: seq<Process>)
    requires |lines| < |ps|
    ensures |r| == |ps|
  {
    Overlaid(ProcessesOf(lines), ps)[|lines| := EndProcess(ps[|lines|])]
  }

  lemma MetaRoundTrip(lines: seq<ProcessLine>, rest: string, n: int, ps: seq<Process>)
    requires |lines| < |ps| <= LONG_MAX && forall i :: 0 <= i < |lines| ==> LongProcess(lines[i])
    ensures ParseMeta(Field(|lines|, ';') + (PrintProcesses(lines) + (";;" + rest)), n, ps) ==
            Ok((|lines|, MetaTable(ps, lines)), rest)
  {
    MetaStartRoundTrip(lines, rest, n);
  }

  lemma {:induction false} CountConcat(a: string, b: string)
    ensures CountSemicolons(a + b) == CountSemicolons(a) + CountSemicolons(b)
  {
    if a == "" {
      assert a + b == b;
    } else {
      assert (a + b)[1..] == a[1..] + b;
      CountConcat(a[1..], b);
    }
  }

  lemma {:induction false} CountNone(t: string)
    requires ';' !in t
    ensures CountSemicolons(t) == 0
  {
    if t == "" {
    } else {
      CountNone(t[1..]);
    }
  }

  lemma CountField(x: int, end: char)
    ensures CountSemicolons(Field(x, end)) == if end == ';' then 1 else 0
  {
    NumberHasNoSemicolon(x);
    CountNone(PrintNumber(x));
    CountConcat(PrintNumber(x), [end]);
    assert [end][1..] == "";
  }

  /** A printed task has one semicolon. */
  lemma CountTask(t: TaskLine)
    ensures CountSemicolons(PrintTask(t)) == 1
  {
    CountField(t.pid, ',');
    CountField(t.id, ',');
    CountField(t.planned, ',');
    CountField(t.actual, ';');
    CountConcat(Field(t.pid, ','), Field(t.id, ','));
    CountConcat(Field(t.pid, ',') + Field(t.id, ','), Field(t.planned, ','));
    CountConcat(Field(t.pid, ',') + Field(t.id, ',') + Field(t.planned, ','), Field(t.actual, ';'));
  }

  lemma {:induction false} CountTasks(ts: seq<TaskLine>)
    ensures CountSemicolons(PrintTasks(ts)) == |ts|
  {
    if ts == [] {
    } else {
      CountTask(ts[0]);
      CountTasks(ts[1..]);
      CountConcat(PrintTask(ts[0]), PrintTasks(ts[1..]));
    }
  }

  lemma TaskRoundTrip(t: TaskLine, rest: string, ps: seq<Process>)
    requires LongTask(t, |ps|) && |ps| <= LONG_MAX
    ensures ParseTask(PrintTask(t) + rest, ps) == Ok((TaskOf(t), Credited(ps, t)), rest)
  {
    var r3 := Field(t.actual, ';') + rest;
    var r2 := Field(t.planned, ',') + r3;
    var r1 := Field(t.id, ',') + r2;
    Assoc(Field(t.pid, ',') + Field(t.id, ',') + Field(t.planned, ','), Field(t.actual, ';'), rest);
    Assoc(Field(t.pid, ',') + Field(t.id, ','), Field(t.planned, ','), r3);
    Assoc(Field(t.pid, ','), Field(t.id, ','), r2);
    FieldRoundTrip(t.pid, ',', r1);
    FieldRoundTrip(t.id, ',', r2);
    FieldRoundTrip(t.planned, ',', r3);
    FieldRoundTrip(t.actual, ';', rest);
  }

  function CreditedAll(ps: seq<Process>, lines: seq<TaskLine>): (r: seq<Process>)
    ensures |r| == |ps|
    decreases |lines|
  {
    if lines == [] then ps else
    CreditedAll(Credited(ps, lines[0]), lines[1..])
  }

  function TasksOfLines(lines: seq<TaskLine>): (r: seq<Task>)
    ensures |r| == |lines|
    ensures forall i :: 0 <= i < |r| ==> r[i] == TaskOf(lines[i])
  {
    seq(|lines|, i requires 0 <= i < |lines| => TaskOf(lines[i]))
  }

  lemma TasksLoopEnds(rest: string, ps: seq<Process>)
    ensures TasksLoop(PrintTasks([]) + rest, 0, ps) == Ok((ps, TasksOfLines([])), rest)
  {
    assert PrintTasks([]) + rest == rest;
  }

  /** One more printed task in front of tasks that are read back. */
  lemma OneMoreTask(
      line: TaskLine, text: string, n: nat, ps: seq<Process>, table: seq<Process>, tasks: seq<Task>, rest: string)
    requires LongTask(line, |ps|) && |ps| <= LONG_MAX
    requires TasksLoop(text, n, Credited(ps, line)) == Ok((table, tasks), rest)
    ensures TasksLoop(PrintTask(line) + text, n + 1, ps) == Ok((table, [TaskOf(line)] + tasks), rest)
  {
    TaskRoundTrip(line, text, ps);
    TasksLoopStep(PrintTask(line) + text, n + 1, ps);
    SameCount(text, n + 1 - 1, n, Credited(ps, line));
  }

  lemma {:induction false} TasksLoopRoundTrip(lines: seq<TaskLine>, rest: string, ps: seq<Process>)
    requires |ps| <= LONG_MAX && forall m :: 0 <= m < |lines| ==> LongTask(lines[m], |ps|)
    ensures TasksLoop(PrintTasks(lines) + rest, |lines|, ps) == Ok((CreditedAll(ps, lines), TasksOfLines(lines)), rest)
    decreases |lines|
  {
    if lines == [] {
      TasksLoopEnds(rest, ps);
    } else {
      var line, later := lines[0], lines[1..];
      var text, table := PrintTasks(later) + rest, Credited(ps, line);
      TasksLoopRoundTrip(later, rest, table);
      OneMoreTask(line, text, |later|, ps, CreditedAll(table, later), TasksOfLines(later), rest);
      assert PrintTasks(lines) + rest == PrintTask(line) + text by {
        Assoc(PrintTask(line), PrintTasks(later), rest);
      }
      SameCount(PrintTask(line) + text, |later| + 1, |lines|, ps);
      assert TasksOfLines(lines) == [TaskOf(line)] + TasksOfLines(later);
    }
  }

  /** The task array after the tasks section: the tasks, and the sentinel behind them. */
  function TaskArray(ts: seq<Task>, lines: seq<TaskLine>): (r: seq<Task>)
    requires |lines| < |ts|
    ensures |r| == |ts|
  {
    Overlaid(TasksOfLines(lines), ts)[|lines| := ts[|lines|].(id := -2, pid := -2)]
  }

  /** The array holds the lines' tasks and an end mark behind them; the rest of it is as before. */
  predicate StoresTasks(ts: seq<Task>, lines: seq<TaskLine>, before: seq<Task>) {
    && |lines| < |ts| == |before|
    && (forall i :: 0 <= i < |lines| ==> ReadAs(ts[i], lines[i]))
    && ts[|lines|].id == ts[|lines|].pid == -2
    && ts[|lines| + 1..] == before[|lines| + 1..]
  }

  lemma ArrayStoresTasks(ts: seq<Task>, lines: seq<TaskLine>)
    requires |lines| < |ts|
    ensures StoresTasks(TaskArray(ts, lines), lines, ts)
  {
  }

  lemma TasksRoundTrip(lines: seq<TaskLine>, tail: string, ps: seq<Process>, ts: seq<Task>)
    requires |lines| < |ts| && |ps| <= LONG_MAX && forall m :: 0 <= m < |lines| ==> LongTask(lines[m], |ps|)
    requires ';' !in tail
    ensures CountSemicolons(PrintTasks(lines) + tail) == |lines|
    ensures ParseTasks(PrintTasks(lines) + tail, ps, ts) == Ok((CreditedAll(ps, lines), TaskArray(ts, lines)), tail)
    ensures StoresTasks(TaskArray(ts, lines), lines, ts)
  {
    CountTasks(lines);
    CountNone(tail);
    CountConcat(PrintTasks(lines), tail);
    TasksLoopRoundTrip(lines, tail, ps);
    ArrayStoresTasks(ts, lines);
  }

  /** What is in the process table after the printed plan was read. */
  function TableOf(ps: seq<Process>, processes: seq<ProcessLine>, tasks: seq<TaskLine>): seq<Process>
    requires |processes| < |ps|
  {
    CreditedAll(MetaTable(ps, processes), tasks)
  }

  /**
   * The round trip: parsing the text of a plan gives the plan back, whatever the arrays held before
   * and whatever follows the text short of another semicolon.
   */
  lemma PlanRoundTrip(
      processes: seq<ProcessLine>, tasks: seq<TaskLine>, tail: string, n: int, ps: seq<Process>, ts: seq<Task>)
    requires |processes| < |ps| == MAX_NUMBER_PROCESSES && |tasks| < |ts| == MAX_NUMBER_TASKS_IN_PLAN
    requires forall i :: 0 <= i < |processes| ==> LongProcess(processes[i])
    requires forall i :: 0 <= i < |tasks| ==> LongTask(tasks[i], |processes|)
    requires ';' !in tail
    ensures ParsePlan(PrintPlan(processes, tasks) + tail, n, ps, ts) ==
            Ok(ParsedPlan(|processes|, |tasks|, TableOf(ps, processes, tasks), TaskArray(ts, tasks)), tail)
    ensures StoresTasks(TaskArray(ts, tasks), tasks, ts)
  {
    PrintedInParts(processes, tasks, tail);
    MetaRoundTrip(processes, PrintTasks(tasks) + tail, n, ps);
    assert forall i :: 0 <= i < |tasks| ==> LongTask(tasks[i], |processes|) ==> LongTask(tasks[i], |ps|);
    TasksRoundTrip(tasks, tail, MetaTable(ps, processes), ts);
  }

  lemma PrintedInParts(processes: seq<ProcessLine>, tasks: seq<TaskLine>, tail: string)
    ensures PrintPlan(processes, tasks) + tail ==
            Field(|processes|, ';') + (PrintProcesses(processes) + (";;" + (PrintTasks(tasks) + tail)))
  {
    var a, b, c := Field(|processes|, ';'), PrintProcesses(processes), PrintTasks(tasks);
    Assoc(a, b + (";;" + c), tail);
    Assoc(b, ";;" + c, tail);
    Assoc(";;", c, tail);
  }

  // ----- aggregates -----

  function LinesOf(lines: seq<TaskLine>, pid: int): nat {
    if lines == [] then 0 else (if lines[0].pid == pid then 1 else 0) + LinesOf(lines[1..], pid)
  }

  function PlannedOf(lines: seq<TaskLine>, pid: int): int {
    if lines == [] then 0 else (if lines[0].pid == pid then lines[0].planned else 0) + PlannedOf(lines[1..], pid)
  }

  /** Each process gets the count and the sum over its own tasks, and nothing else of it changes. */
  lemma {:induction false} CreditedAllAt(ps: seq<Process>, lines: seq<TaskLine>, p: int)
    requires forall i :: 0 <= i < |lines| ==> LongTask(lines[i], |ps|)
    requires 0 <= p < |ps|
    ensures CreditedAll(ps, lines)[p] ==
            ps[p].(tasksRemaining := ps[p].tasksRemaining + LinesOf(lines, p),
                   planLength := ps[p].planLength + PlannedOf(lines, p))
    decreases |lines|
  {
    if lines == [] {
    } else {
      CreditedAllAt(Credited(ps, lines[0]), lines[1..], p);
    }
  }

  lemma {:induction false} NoLines(lines: seq<TaskLine>, pid: int)
    requires forall i :: 0 <= i < |lines| ==> lines[i].pid != pid
    ensures LinesOf(lines, pid) == PlannedOf(lines, pid) == 0
  {
    if lines == [] {
    } else {
      NoLines(lines[1..], pid);
    }
  }

  /** The table entry by entry: aggregates for each process, the end mark behind the last one. */
  lemma TableAt(ps: seq<Process>, processes: seq<ProcessLine>, tasks: seq<TaskLine>, p: int)
    requires |processes| < |ps|
    requires forall i :: 0 <= i < |tasks| ==> LongTask(tasks[i], |processes|)
    requires 0 <= p < |ps|
    ensures |TableOf(ps, processes, tasks)| == |ps|
    ensures p < |processes| ==>
              TableOf(ps, processes, tasks)[p] ==
              Process(processes[p].pid, LinesOf(tasks, p), processes[p].buffer, 0, PlannedOf(tasks, p), 0)
    ensures p == |processes| ==>
              TableOf(ps, processes, tasks)[p] ==
              Process(-2, ps[p].tasksRemaining, -2, ps[p].lateness, 0, ps[p].retired)
    ensures p > |processes| ==> TableOf(ps, processes, tasks)[p] == ps[p]
  {
    assert forall i :: 0 <= i < |tasks| ==> LongTask(tasks[i], |processes|) ==> LongTask(tasks[i], |ps|);
    CreditedAllAt(MetaTable(ps, processes), tasks, p);
    if p >= |processes| { NoLines(tasks, p); }
  }

  // ----- the length of a plan -----

  /** calculate_length_plan on an array whatever it holds (plan.c:145-154) */
  function LengthUntilEnd(ts: seq<Task>): int {
    if ts == [] || ts[0].id == -2 then 0 else ts[0].planned + LengthUntilEnd(ts[1..])
  }

  function SumPlanned(lines: seq<TaskLine>): int {
    if lines == [] then 0 else lines[0].planned + SumPlanned(lines[1..])
  }

  function SumOverProcesses(lines: seq<TaskLine>, n: nat): int {
    if n == 0 then 0 else SumOverProcesses(lines, n - 1) + PlannedOf(lines, n - 1)
  }

  lemma {:induction false} SumStep(lines: seq<TaskLine>, n: nat)
    requires lines != []
    ensures SumOverProcesses(lines, n) ==
            SumOverProcesses(lines[1..], n) + if 0 <= lines[0].pid < n then lines[0].planned else 0
    decreases n
  {
    if n == 0 {
    } else {
      SumStep(lines, n - 1);
    }
  }

  lemma {:induction false} SumOfNothing(n: nat)
    ensures SumOverProcesses([], n) == 0
  {
    if n == 0 {
    } else {
      SumOfNothing(n - 1);
    }
  }

  /** The lengths of all entries are the lengths of the processes' tasks and of the free slots. */
  lemma {:induction false} PlannedAddsUp(lines: seq<TaskLine>, n: nat)
    requires forall i :: 0 <= i < |lines| ==> LongTask(lines[i], n)
    ensures SumPlanned(lines) == SumOverProcesses(lines, n) + PlannedOf(lines, -1)
    decreases |lines|
  {
    if lines == [] {
      SumOfNothing(n);
    } else {
      assert LongTask(lines[0], n);
      assert forall i :: 0 <= i < |lines[1..]| ==> lines[1..][i] == lines[i + 1];
      PlannedAddsUp(lines[1..], n);
      SumStep(lines, n);
    }
  }

  lemma {:induction false} LengthOfStored(ts: seq<Task>, lines: seq<TaskLine>)
    requires |lines| < |ts| && ts[|lines|].id == -2
    requires forall i :: 0 <= i < |lines| ==> ts[i] == TaskOf(lines[i]) && lines[i].id != -2
    ensures LengthUntilEnd(ts) == SumPlanned(lines)
    decreases |lines|
  {
    if lines == [] {
    } else {
      LengthOfStored(ts[1..], lines[1..]);
    }
  }

  /**
   * The aggregates of a parsed plan: instructions_planned is the sum of all processes' plan lengths
   * and the lengths of the free slots (parse_plan.c:37, 122-149).
   */
  lemma PlanLengthIsSumOfParts(
      processes: seq<ProcessLine>, tasks: seq<TaskLine>, ts: seq<Task>)
    requires |tasks| < |ts| && forall i :: 0 <= i < |tasks| ==> LongTask(tasks[i], |processes|) && tasks[i].id != -2
    ensures LengthUntilEnd(TaskArray(ts, tasks)) == SumOverProcesses(tasks, |processes|) + PlannedOf(tasks, -1)
  {
    LengthOfStored(TaskArray(ts, tasks), tasks);
    PlannedAddsUp(tasks, |processes|);
  }
}
