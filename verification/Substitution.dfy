/** Filling an unallocated slot with a preempted task of the latest process (pb-scheduler.c:183-275). */
module Substitution {
  import opened Config
  import opened Entities
  import opened Model
  import opened Layout
  import opened Scheduler

  /** What marks a process without a task in the plan (pb-scheduler.c:204). */
  const NO_TASK_FOUND := Task(-1, -1, -1, 0, 0, 0, 0, TaskWaiting, 0, 0)

  /**
   * Where the scan of the first `n` entries leaves the candidate of a process, -1 if there is none. A
   * candidate that is planned with -1 looks like none and is replaced (pb-scheduler.c:231-233).
   */
  function PlaceIn(ts: seq<Task>, pid: int, n: nat): (j: int)
    requires n <= |ts|
    ensures -1 <= j < n
    ensures j != -1 ==> ts[j].pid == pid
  {
    if n == 0 then -1 else
    var j := PlaceIn(ts, pid, n - 1);
    if ts[n - 1].pid == pid && (j == -1 || ts[j].planned == -1) then n - 1 else j
  }

  function CandidateIn(ts: seq<Task>, pid: int, n: nat): Task
    requires n <= |ts|
  {
    var j := PlaceIn(ts, pid, n);
    if j == -1 then NO_TASK_FOUND else ts[j]
  }

  function NextPlace(ts: seq<Task>, pid: int): (j: int)
    ensures -1 <= j < |ts|
    ensures j != -1 ==> ts[j].pid == pid
  {
    PlaceIn(ts, pid, |ts|)
  }

  function NextTask(ts: seq<Task>, pid: int): Task {
    CandidateIn(ts, pid, |ts|)
  }

  lemma {:induction false} PlaceInMeaning(ts: seq<Task>, pid: int, n: nat)
    requires n <= |ts|
    ensures var j := PlaceIn(ts, pid, n);
            && (j == -1 <==> forall i :: 0 <= i < n ==> ts[i].pid != pid)
            && (j != -1 && ts[j].planned != -1 ==> forall i :: 0 <= i < j && ts[i].pid == pid ==> ts[i].planned == -1)
            && (j != -1 && ts[j].planned == -1 ==>
                  forall i :: 0 <= i < n && ts[i].pid == pid ==> i <= j && ts[i].planned == -1)
  {
    if n == 0 {
    } else {
      PlaceInMeaning(ts, pid, n - 1);
    }
  }

  /** No task has the planned length that marks an empty candidate (pb-scheduler.c:231). */
  predicate PlannedLengths(ts: seq<Task>) {
    forall i :: 0 <= i < |ts| && ts[i].pid >= 0 ==> ts[i].planned != -1
  }

  /**
   * The candidate of a process is its first task; only tasks planned with -1 are passed over, unless it
   * has no others, when the last of them is the candidate.
   */
  lemma NextPlaceMeaning(ts: seq<Task>, pid: int)
    ensures var j := NextPlace(ts, pid);
            && (j == -1 <==> forall i :: 0 <= i < |ts| ==> ts[i].pid != pid)
            && (j != -1 && ts[j].planned != -1 ==> forall i :: 0 <= i < j && ts[i].pid == pid ==> ts[i].planned == -1)
            && (j != -1 && ts[j].planned == -1 ==>
                  forall i :: 0 <= i < |ts| && ts[i].pid == pid ==> i <= j && ts[i].planned == -1)
            && (j != -1 && pid >= 0 && PlannedLengths(ts) ==> forall i :: 0 <= i < j ==> ts[i].pid != pid)
  {
    PlaceInMeaning(ts, pid, |ts|);
  }

  /** The last entry of the array of candidates is given up for its end mark (pb-scheduler.c:235). */
  const LAST := MAX_NUMBER_PROCESSES - 1

  /** A process whose next task may run in the slot: it was preempted and its process is late. */
  predicate Candidate(ts: seq<Task>, processes: seq<Process>, pid: int) {
    && 0 <= pid < LAST && pid < |processes|
    && NextPlace(ts, pid) != -1
    && NextTask(ts, pid).wasPreempted != 0
    && processes[pid].lateness > 0
  }

  /** The candidates that find_substitution_task chooses from are the latest ones. */
  ghost predicate Latest(ts: seq<Task>, processes: seq<Process>, pid: int) {
    && Candidate(ts, processes, pid)
    && forall q :: Candidate(ts, processes, q) ==> processes[q].lateness <= processes[pid].lateness
  }

  /** What the candidate array holds after the first `n` entries were looked at. */
  predicate HoldsCandidates(next: seq<Task>, ts: seq<Task>, n: nat)
    requires n <= |ts|
  {
    && |next| == MAX_NUMBER_PROCESSES
    && forall q :: 0 <= q < |next| ==> next[q] == CandidateIn(ts, q, n)
  }

  /** The candidate array after one more entry was looked at. */
  function Looked(next: seq<Task>, t: Task): seq<Task> {
    if 0 <= t.pid < |next| && next[t.pid].planned == -1 then next[t.pid := t] else next
  }

  lemma HoldsCandidatesStep(next: seq<Task>, ts: seq<Task>, n: nat)
    requires n < |ts| && HoldsCandidates(next, ts, n)
    ensures HoldsCandidates(Looked(next, ts[n]), ts, n + 1)
  {
  }

  /** All processes start out without a candidate (pb-scheduler.c:212-217). */
  method MarkNotFound(next: array<Task>)
    requires next.Length == MAX_NUMBER_PROCESSES
    requires forall q :: 0 <= q < next.Length ==> next[q].pid != -2
    modifies next
    ensures forall q :: 0 <= q < next.Length ==> next[q] == NO_TASK_FOUND
  {
    for q := 0 to MAX_NUMBER_PROCESSES
      invariant forall m :: 0 <= m < q ==> next[m] == NO_TASK_FOUND
      invariant forall m :: q <= m < next.Length ==> next[m].pid != -2
    {
      if next[q].pid == -2 {
        break;
      }
      next[q] := NO_TASK_FOUND;
    }
  }

  /** One entry looked at (pb-scheduler.c:222-233). */
  method LookAt(curTask: Task, next: array<Task>)
    requires next.Length == MAX_NUMBER_PROCESSES
    requires curTask.pid == -1 || curTask.pid == -2 || 0 <= curTask.pid < MAX_NUMBER_PROCESSES
    modifies next
    ensures next[..] == Looked(old(next[..]), curTask)
  {
    if curTask.pid == -1 || curTask.pid == -2 {
      return;
    }
    if next[curTask.pid].planned == -1 {
      next[curTask.pid] := curTask;
    }
  }

  /** All entries are looked at (pb-scheduler.c:219-234). */
  method ScanEntries(p: Plan, next: array<Task>)
    requires p.Valid()
    requires next != p.tasks && HoldsCandidates(next[..], p.View().tasks, 0)
    modifies next
    ensures HoldsCandidates(next[..], p.View().tasks, |p.View().tasks|)
  {
    ghost var ts := p.View().tasks;
    p.SentinelIsFirstEnd();
    EntriesAreGood(p.View());
    var curTaskId, i := -3, 0;
    while curTaskId != -2
      modifies next
      invariant 0 <= i <= p.end + 1
      invariant curTaskId == -2 <==> i == p.end + 1
      invariant HoldsCandidates(next[..], ts, i)
      decreases p.end + 1 - i
    {
      assert ts[i] == p.tasks[i];
      curTaskId := p.tasks[i].id;
      ghost var before := next[..];
      LookAt(p.tasks[i], next);
      HoldsCandidatesStep(before, ts, i);
      i := i + 1;
    }
  }

  /** find_next_task_for_all_processes (pb-scheduler.c:203-236) into an array without end marks */
  method FindNextTaskForAllProcesses(p: Plan, next: array<Task>)
    requires p.Valid()
    requires next != p.tasks && next.Length == MAX_NUMBER_PROCESSES
    requires forall q :: 0 <= q < next.Length ==> next[q].pid != -2
    modifies next
    ensures next[LAST].id == -2
    ensures forall q :: 0 <= q < LAST ==> next[q] == NextTask(p.View().tasks, q)
  {
    ghost var s := p.View();
    MarkNotFound(next);
    assert p.View() == s;
    ScanEntries(p, next);
    assert forall q :: 0 <= q < LAST ==> next[..][q] == NextTask(s.tasks, q);
    next[LAST] := next[LAST].(id := -2);
  }

  lemma EntriesAreGood(s: State)
    requires Shaped(s)
    ensures forall i :: 0 <= i < |s.tasks| && s.tasks[i].pid >= 0 ==> s.tasks[i].Real()
    ensures forall i :: 0 <= i < |s.tasks| && s.tasks[i].Real() ==> 0 <= s.tasks[i].pid < MAX_NUMBER_PROCESSES
    ensures forall i :: 0 <= i < |s.tasks| - 1 ==> s.tasks[i].id != -2
    ensures forall i :: 0 <= i < |s.tasks| && s.tasks[i].pid < 0 ==> s.tasks[i].pid == -1 || s.tasks[i].pid == -2
  {
    forall i | 0 <= i < |s.tasks|
      ensures s.tasks[i].pid >= 0 ==> s.tasks[i].Real()
      ensures s.tasks[i].Real() ==> 0 <= s.tasks[i].pid < MAX_NUMBER_PROCESSES
      ensures i < |s.tasks| - 1 ==> s.tasks[i].id != -2
      ensures s.tasks[i].pid < 0 ==> s.tasks[i].pid == -1 || s.tasks[i].pid == -2
    {
      if i < |s.tasks| - 1 { assert GoodEntry(s.tasks[i], s.processes, s.numProcesses); }
    }
  }

  /** A candidate array entry after the first loop of find_substitution_task. */
  function Filtered(t: Task): Task {
    if t.wasPreempted == 0 then t.(id := -1) else t
  }

  /** Where a task with distinct ids is found by its id. */
  lemma FoundById(s: State, j: int)
    requires Shaped(s) && DistinctIds(s.tasks) && 0 <= j < |s.tasks| - 1 && s.tasks[j].Real()
    ensures IndexOf(s.tasks, s.tasks[j].id) == j
  {
  }

  /** A filtered entry other than NO_TASK_FOUND keeps its id exactly if its task may be chosen. */
  lemma FilteredMeaning(s: State, q: int)
    requires Shaped(s) && 0 <= q < LAST
    ensures var t, j := Filtered(NextTask(s.tasks, q)), NextPlace(s.tasks, q);
            && t.id != -2
            && (t.id != -1 <==> j != -1 && NextTask(s.tasks, q).wasPreempted != 0)
            && (t.id != -1 ==> t.pid == q && t == s.tasks[j] && j < |s.tasks| - 1 && t.Real())
  {
    EntriesAreGood(s);
  }

  /** Processes whose next task was not preempted are filtered out (pb-scheduler.c:249-257). */
  method FilterPreempted(ghost s: State, next: array<Task>)
    requires Shaped(s) && next.Length == MAX_NUMBER_PROCESSES
    requires next[LAST].id == -2
    requires forall q :: 0 <= q < LAST ==> next[q] == NextTask(s.tasks, q)
    modifies next
    ensures next[LAST].id == -2
    ensures forall q :: 0 <= q < LAST ==> next[q] == Filtered(NextTask(s.tasks, q))
  {
    var cur := 0;
    forall q | 0 <= q < LAST ensures NextTask(s.tasks, q).id != -2 { FilteredMeaning(s, q); }
    while next[cur].id != -2
      invariant 0 <= cur <= LAST && next[LAST].id == -2
      invariant forall q :: 0 <= q < LAST ==>
        next[q] == if q < cur then Filtered(NextTask(s.tasks, q)) else NextTask(s.tasks, q)
      decreases LAST - cur
    {
      if next[cur].wasPreempted == 0 {
        next[cur] := next[cur].(id := -1);
      }
      cur := cur + 1;
    }
  }

  /** The latest of the processes that are left (pb-scheduler.c:259-270), -1 if none is late. */
  method PickLatest(p: Plan, next: array<Task>) returns (sub: int)
    requires p.Valid() && next.Length == MAX_NUMBER_PROCESSES
    requires next[LAST].id == -2
    requires forall q :: 0 <= q < LAST ==> next[q] == Filtered(NextTask(p.View().tasks, q))
    ensures sub == -1 ==> forall q :: !Candidate(p.View().tasks, p.View().processes, q)
    ensures sub != -1 ==> Latest(p.View().tasks, p.View().processes, sub)
  {
    ghost var s := p.View();
    var maxLateness := 0;
    var cur := 0;
    sub := -1;
    while next[cur].id != -2
      invariant 0 <= cur <= LAST
      invariant maxLateness >= 0
      invariant sub == -1 ==> maxLateness == 0
      invariant sub != -1 ==> 0 <= sub < cur && Candidate(s.tasks, s.processes, sub)
      invariant sub != -1 ==> s.processes[sub].lateness == maxLateness
      invariant forall q :: 0 <= q < cur && Candidate(s.tasks, s.processes, q) ==>
                  s.processes[q].lateness <= maxLateness
      decreases LAST - cur
    {
      FilteredMeaning(s, cur);
      if next[cur].id != -1 {
        var lateness := p.processes[next[cur].pid].lateness;
        if maxLateness < lateness {
          maxLateness := lateness;
          sub := cur;
        }
      }
      cur := cur + 1;
    }
    assert cur == LAST by { forall q | 0 <= q < LAST ensures next[q].id != -2 { FilteredMeaning(s, q); } }
  }

  /** find_substitution_task (pb-scheduler.c:243-275): the entry to run, -1 standing for the null pointer */
  method FindSubstitutionTask(p: Plan, next: array<Task>) returns (r: int)
    requires p.Valid() && DistinctIds(p.View().tasks)
    requires next != p.tasks && next.Length == MAX_NUMBER_PROCESSES
    requires next[LAST].id == -2
    requires forall q :: 0 <= q < LAST ==> next[q] == NextTask(p.View().tasks, q)
    modifies next
    ensures r == -1 <==> !exists q :: Candidate(p.View().tasks, p.View().processes, q)
    ensures r != -1 ==> exists q :: Latest(p.View().tasks, p.View().processes, q) && r == NextPlace(p.View().tasks, q)
  {
    ghost var s := p.View();
    FilterPreempted(s, next);
    assert p.View() == s;
    var sub := PickLatest(p, next);
    if sub == -1 {
      return -1;
    }
    FilteredMeaning(s, sub);
    FoundById(s, NextPlace(s.tasks, sub));
    r := p.FindTaskWithTaskId(next[sub].id);
    assert Latest(s.tasks, s.processes, sub);
  }

  /** The list without its first entry, entry `r` brought to the front. */
  function BroughtForward(ts: seq<Task>, r: int): seq<Task>
    requires 0 <= r < |ts|
  {
    if r == 0 then ts[1..] else [ts[r]] + ts[1..r] + ts[r + 1..]
  }

  /** All entries behind entry `r` move one place forward, the sentinel last (plan.c:136-140). */
  method MoveOneForward(tasks: array<Task>, r: int, ghost end: int)
    requires 0 <= r <= end < tasks.Length && tasks[end].id == -2
    requires forall i :: r <= i < end ==> tasks[i].id != -2
    modifies tasks
    ensures tasks[..r] == old(tasks[..r])
    ensures tasks[r..end] == old(tasks[r + 1..end + 1])
  {
    ghost var was := tasks[..];
    var cur := r;
    while tasks[cur].id != -2
      invariant r <= cur <= end
      invariant forall m :: 0 <= m < r ==> tasks[m] == was[m]
      invariant forall m :: r <= m < cur ==> tasks[m] == was[m + 1]
      invariant forall m :: cur <= m <= end ==> tasks[m] == was[m]
      decreases end - cur
    {
      tasks[cur] := tasks[cur + 1];
      cur := cur + 1;
    }
  }

  /** replace_unallocated_slot_in_plan (plan.c:130-141) */
  method ReplaceUnallocatedSlot(p: Plan, r: int)
    requires p.Valid() && p.indexCurTask == 0 && 0 <= r < p.end
    modifies p, p.tasks
    ensures p.Valid() && p.end == old(p.end) - 1
    ensures p.View() == old(p.View()).(tasks := BroughtForward(old(p.View()).tasks, r))
  {
    ghost var before := p.View();
    p.SentinelIsFirstEnd();
    p.tasks[0] := p.tasks[r];
    ghost var copied := p.tasks[..p.end + 1];
    assert copied == before.tasks[0 := before.tasks[r]];
    MoveOneForward(p.tasks, r, p.end);
    p.end := p.end - 1;
    assert p.View().tasks == copied[..r] + copied[r + 1..] by {
      assert p.View().tasks == p.tasks[..r] + p.tasks[r..p.end + 1];
    }
    assert p.View().tasks == BroughtForward(before.tasks, r);
    BroughtForwardShaped(before, r);
  }

  lemma BroughtForwardShaped(s: State, r: int)
    requires Shaped(s) && s.cur == 0 && 0 <= r < |s.tasks| - 1
    ensures Shaped(s.(tasks := BroughtForward(s.tasks, r)))
  {
    var ts := BroughtForward(s.tasks, r);
    forall i | 0 <= i < |ts| - 1 ensures GoodEntry(ts[i], s.processes, s.numProcesses) {
      assert GoodEntry(s.tasks[i], s.processes, s.numProcesses);
      assert GoodEntry(s.tasks[i + 1], s.processes, s.numProcesses);
      assert GoodEntry(s.tasks[r], s.processes, s.numProcesses);
    }
  }

  /** clear_preemption (task.c:40-43) */
  function ClearPreemption(t: Task): Task {
    t.(wasPreempted := 0, slotOwner := t.id)
  }

  /** The choice of handle_unallocated_slot (pb-scheduler.c:184-190) */
  method ChooseTask(p: Plan) returns (r: int)
    requires p.Valid() && DistinctIds(p.View().tasks)
    ensures r == -1 <==> !exists q :: Candidate(p.View().tasks, p.View().processes, q)
    ensures r != -1 ==> exists q :: Latest(p.View().tasks, p.View().processes, q) && r == NextPlace(p.View().tasks, q)
  {
    ghost var s := p.View();
    var next := new Task[MAX_NUMBER_PROCESSES](_ => CreateTask(0, 0, 0, 0));
    assert p.View() == s;
    FindNextTaskForAllProcesses(p, next);
    assert p.View() == s;
    r := FindSubstitutionTask(p, next);
  }

  /** clear_preemption (task.c:40-43) through a pointer to entry `r` */
  method ClearPreemptionAt(p: Plan, r: int)
    requires p.Valid() && 0 <= r <= p.end
    modifies p.tasks
    ensures p.Valid() && p.end == old(p.end)
    ensures p.View() == old(p.View()).(tasks := old(p.View()).tasks[r := ClearPreemption(old(p.View()).tasks[r])])
  {
    ghost var before := p.View();
    p.tasks[r] := p.tasks[r].(wasPreempted := 0, slotOwner := p.tasks[r].id);
    assert p.View().tasks == before.tasks[r := ClearPreemption(before.tasks[r])];
    ClearedShaped(before, r);
  }

  lemma ClearedShaped(s: State, r: int)
    requires Shaped(s) && 0 <= r < |s.tasks|
    ensures Shaped(s.(tasks := s.tasks[r := ClearPreemption(s.tasks[r])]))
  {
    assert forall i :: 0 <= i < |s.tasks| - 1 ==> GoodEntry(s.tasks[i], s.processes, s.numProcesses);
  }

  lemma SubstituteIsBehind(s: State, q: int)
    requires Shaped(s) && s.cur == 0 && s.Current().Free() && Candidate(s.tasks, s.processes, q)
    ensures 0 < NextPlace(s.tasks, q) < |s.tasks| - 1
  {
    EntriesAreGood(s);
    assert GoodEntry(s.tasks[0], s.processes, s.numProcesses);
  }

  /**
   * handle_unallocated_slot (pb-scheduler.c:183-194). Without a candidate the program follows a null
   * pointer; this is the result false. The pointer that clear_preemption is given still points at the
   * place the chosen task was taken from.
   */
  method HandleUnallocatedSlot(p: Plan) returns (filled: bool, ghost q: int)
    requires p.Valid() && p.indexCurTask == 0 && p.View().Current().Free()
    requires DistinctIds(p.View().tasks)
    modifies p, p.tasks
    ensures p.Valid()
    ensures !filled ==> p.View() == old(p.View())
    ensures !filled ==> forall x :: !Candidate(old(p.View()).tasks, old(p.View()).processes, x)
    ensures filled ==> Latest(old(p.View()).tasks, old(p.View()).processes, q)
    ensures filled ==>
              p.View() == old(p.View()).(tasks := Substituted(old(p.View()).tasks, NextPlace(old(p.View()).tasks, q)))
  {
    ghost var s := p.View();
    var r := ChooseTask(p);
    assert p.View() == s;
    if r == -1 {
      return false, -1;
    }
    q :| Latest(s.tasks, s.processes, q) && r == NextPlace(s.tasks, q);
    SubstituteIsBehind(s, q);
    ReplaceUnallocatedSlot(p, r);
    ClearPreemptionAt(p, r);
    return true, q;
  }

  /** The list after a substitution, with the stale clearing. */
  function Substituted(ts: seq<Task>, r: int): seq<Task> {
    if 0 < r < |ts| - 1
    then BroughtForward(ts, r)[r := ClearPreemption(BroughtForward(ts, r)[r])]
    else ts
  }

  /**
   * The clearing never reaches the task that was brought forward: it runs in the slot still marked as
   * preempted and still in its old slot owner's name, and the entry behind its old place is cleared
   * instead (pb-scheduler.c:192-193).
   */
  lemma ClearingMissesTheSubstitute(ts: seq<Task>, processes: seq<Process>, q: int)
    requires Candidate(ts, processes, q) && 0 < NextPlace(ts, q) < |ts| - 1
    ensures var r := NextPlace(ts, q);
            var after := Substituted(ts, r);
            && after[0] == ts[r] && after[0].wasPreempted != 0
            && after[r] == ClearPreemption(ts[r + 1])
            && forall m :: 0 < m < |after| && m != r ==> after[m] == if m < r then ts[m] else ts[m + 1]
  {
  }

  // ----- the layout after a substitution -----

  /** Where entry `m` of the list after a substitution was before. */
  function SubstitutedFrom(r: int, m: int): int {
    if m == 0 then r else if m < r then m else m + 1
  }

  /** Where entry `j` of the list goes; the free slot in front is dropped. */
  function SubstitutedTo(r: int, j: int): int {
    if j == r then 0 else if j < r then j else j - 1
  }

  lemma SubstitutedAt(ts: seq<Task>, r: int, m: int)
    requires 0 < r < |ts| - 1 && 0 <= m < |ts| - 1
    ensures |Substituted(ts, r)| == |ts| - 1
    ensures var a, t := SubstitutedFrom(r, m), Substituted(ts, r)[m];
            && 1 <= a < |ts| && (a == |ts| - 1 <==> m == |ts| - 2)
            && t == (if m == r then ClearPreemption(ts[a]) else ts[a])
            && t.id == ts[a].id && t.pid == ts[a].pid
  {
  }

  lemma SubstitutedShaped(s: State, r: int)
    requires Shaped(s) && s.cur == 0 && 0 < r < |s.tasks| - 1
    ensures Shaped(s.(tasks := Substituted(s.tasks, r)))
  {
    BroughtForwardShaped(s, r);
    ClearedShaped(s.(tasks := BroughtForward(s.tasks, r)), r);
  }

  lemma SubstitutedDistinct(ts: seq<Task>, r: int)
    requires DistinctIds(ts) && 0 < r < |ts| - 1 && ts[|ts| - 1].End()
    requires forall i :: 0 <= i < |ts| - 1 ==> !ts[i].End()
    ensures DistinctIds(Substituted(ts, r))
  {
    var after := Substituted(ts, r);
    SubstitutedAt(ts, r, 0);
    forall i, j | 0 <= i < j < |after| && after[i].Real() ensures after[i].id != after[j].id {
      SubstitutedAt(ts, r, i);
      SubstitutedAt(ts, r, j);
    }
  }

  /** The owner of entry `i` of the new list is still at or behind it, because `r` was the first of its process. */
  lemma SubstitutedOwner(ts: seq<Task>, r: int, i: int, b: int)
    requires 0 < r < |ts| - 1 && 0 <= i < |ts| - 2 && i != r
    requires Owns(ts, SubstitutedFrom(r, i), b)
    requires forall m :: 0 <= m < r ==> ts[m].pid != ts[r].pid
    ensures |Substituted(ts, r)| == |ts| - 1 && Owns(Substituted(ts, r), i, SubstitutedTo(r, b))
  {
    SubstitutedAt(ts, r, i);
    SubstitutedAt(ts, r, SubstitutedTo(r, b));
  }

  lemma SubstitutedOwners(ts: seq<Task>, r: int)
    requires OwnersAhead(ts, 0) && 0 < r < |ts| - 1
    requires forall m :: 0 <= m < r ==> ts[m].pid != ts[r].pid
    ensures OwnersAhead(Substituted(ts, r), 0)
  {
    var after := Substituted(ts, r);
    SubstitutedAt(ts, r, 0);
    forall i {:trigger HasOwner(after, i)} | 0 <= i < |after| - 1 && after[i].Real() ensures HasOwner(after, i) {
      SubstitutedAt(ts, r, i);
      if i == r {
        assert Owns(after, i, i);
      } else {
        var a := SubstitutedFrom(r, i);
        assert HasOwner(ts, a);
        var b :| Owns(ts, a, b);
        SubstitutedOwner(ts, r, i, b);
      }
    }
  }

  /** The task that was taken away stood between two free slots that stay in the list. */
  predicate BetweenFreeSlots(ts: seq<Task>, r: int)
    requires 0 < r < |ts| - 1
  {
    2 <= r && ts[r - 1].Free() && ts[r + 1].Free()
  }

  lemma SubstitutedPair(ts: seq<Task>, r: int, i: int)
    requires FreeApart(ts, 0) && 0 < r < |ts| - 1 && ts[r].Real() && ts[|ts| - 1].End()
    requires 0 <= i < |ts| - 2
    ensures |Substituted(ts, r)| == |ts| - 1
    ensures FreePair(Substituted(ts, r), i) <==> i == r - 1 && BetweenFreeSlots(ts, r)
  {
    SubstitutedAt(ts, r, i);
    SubstitutedAt(ts, r, i + 1);
    if i == 0 {
    } else if i == r - 1 {
      assert SubstitutedFrom(r, i + 1) == r + 1;
    } else {
      var a := SubstitutedFrom(r, i);
      assert SubstitutedFrom(r, i + 1) == a + 1 && !FreePair(ts, a);
    }
  }

  lemma SubstitutedFreeApart(ts: seq<Task>, r: int)
    requires FreeApart(ts, 0) && 0 < r < |ts| - 1 && ts[r].Real() && ts[|ts| - 1].End()
    ensures FreeApart(Substituted(ts, r), 0) <==> !BetweenFreeSlots(ts, r)
  {
    var after := Substituted(ts, r);
    SubstitutedAt(ts, r, 0);
    if BetweenFreeSlots(ts, r) {
      SubstitutedPair(ts, r, r - 1);
    } else {
      forall i {:trigger FreePair(after, i)} | 0 <= i < |after| - 1 ensures !FreePair(after, i) {
        SubstitutedPair(ts, r, i);
      }
    }
  }

  /**
   * A substitution keeps ids distinct and owners ahead, and it keeps free slots apart if and only if the
   * task that it takes away did not stand between two of them. Else two free slots are neighbours, which
   * the skipping of the first one asserts against (pb-scheduler.c:174).
   */
  lemma SubstitutionKeepsLayout(s: State, q: int)
    requires Ordered(s) && s.cur == 0 && s.Current().Free() && PlannedLengths(s.tasks)
    requires Candidate(s.tasks, s.processes, q)
    ensures 0 < NextPlace(s.tasks, q) < |s.tasks| - 1
    ensures var r := NextPlace(s.tasks, q);
            var t := s.(tasks := Substituted(s.tasks, r));
            && Shaped(t) && DistinctIds(t.tasks) && OwnersAhead(t.tasks, t.cur)
            && (FreeApart(t.tasks, t.cur) <==> !BetweenFreeSlots(s.tasks, r))
  {
    SubstituteIsBehind(s, q);
    NextPlaceMeaning(s.tasks, q);
    EntriesAreGood(s);
    var r := NextPlace(s.tasks, q);
    SubstitutedShaped(s, r);
    SubstitutedDistinct(s.tasks, r);
    SubstitutedOwners(s.tasks, r);
    SubstitutedFreeApart(s.tasks, r);
  }
}
