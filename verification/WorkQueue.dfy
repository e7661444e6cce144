/** The work queue: a batch of tasks dispatched under a cap, with failures passed on to dependants. */
module WorkQueue {
  import opened OrderedMaps
  import opened TaskGraph

  datatype Priority = High | Normal | Low
  datatype TaskStatus = Queued | Dispatched | Completed | Failed
  datatype TaskError = Reported(text: string) | DependencyFailed(id: string)

  datatype TaskSpec = TaskSpec(id: string, priority: Option<Priority>, dependsOn: Option<seq<string>>)

  datatype TaskState = TaskState(
    spec: TaskSpec, status: TaskStatus, dispatchedAtMs: Option<int>, completedAtMs: Option<int>,
    result: Option<string>, error: Option<TaskError>)

  type Tasks = Ordered<string, TaskState>

  datatype QueueState = QueueState(tasks: Tasks, dispatchOrder: seq<string>, completionOrder: seq<string>)

  function DependsOn(spec: TaskSpec): seq<string> {
    if spec.dependsOn.Some? then spec.dependsOn.value else []
  }

  predicate Has(t: Tasks, id: string, status: TaskStatus) {
    id in t.vals && t.vals[id].status == status
  }

  /** The dependency graph of a queue. No operation changes it. */
  function GraphOfTasks(t: Tasks): Graph {
    map id | id in t.vals :: DependsOn(t.vals[id].spec)
  }

  function NewTask(spec: TaskSpec): TaskState {
    TaskState(spec, Queued, None, None, None, None)
  }

  /** One queued task per id, in the order in which ids first occur. */
  function TasksOfSpecs(specs: seq<TaskSpec>): Tasks {
    if specs == [] then OMap([], map[])
    else
      var last := specs[|specs| - 1];
      TasksOfSpecs(specs[..|specs| - 1]).Set(last.id, NewTask(last))
  }

  function PriorityOf(spec: TaskSpec): Priority {
    if spec.priority.Some? then spec.priority.value else Normal
  }

  /** An insertion with priority `p` goes before the first task whose priority passes this test. */
  predicate StopsBefore(p: Priority, other: Priority) {
    match p
    case High => other != High
    case Normal => other == Low
    case Low => false
  }

  function PlaceFor(order: seq<string>, tasks: Tasks, p: Priority): (i: nat)
    ensures i <= |order|
  {
    if order == [] then 0
    else if StopsBefore(p, if order[0] in tasks.vals then PriorityOf(tasks.vals[order[0]].spec) else Normal) then 0
    else 1 + PlaceFor(order[1..], tasks, p)
  }

  function InsertedAt(order: seq<string>, i: nat, id: string): seq<string>
    requires i <= |order|
  {
    order[..i] + [id] + order[i..]
  }

  /** The order by priority that the creation of a queue works out and then discards. */
  function PriorityOrder(specs: seq<TaskSpec>): seq<string> {
    if specs == [] then []
    else
      var front, last := specs[..|specs| - 1], specs[|specs| - 1];
      var order := PriorityOrder(front);
      InsertedAt(order, PlaceFor(order, TasksOfSpecs(front), PriorityOf(last)), last.id)
  }

  /** Spec `i` is the first, or the last, with its id. */
  ghost predicate FirstOfItsId(specs: seq<TaskSpec>, i: nat)
    requires i < |specs|
  {
    forall j :: 0 <= j < i ==> specs[j].id != specs[i].id
  }

  ghost predicate LastOfItsId(specs: seq<TaskSpec>, i: nat)
    requires i < |specs|
  {
    forall j :: i < j < |specs| ==> specs[j].id != specs[i].id
  }

  /** The ids in the order in which they first occur. */
  function FirstIds(specs: seq<TaskSpec>): seq<string> {
    if specs == [] then []
    else
      var front, id := FirstIds(specs[..|specs| - 1]), specs[|specs| - 1].id;
      if id in front then front else front + [id]
  }

  lemma {:induction false} KeysAreFirstIds(specs: seq<TaskSpec>)
    ensures TasksOfSpecs(specs).keys == FirstIds(specs)
  {
    if specs != [] { KeysAreFirstIds(specs[..|specs| - 1]); }
  }

  /** The last spec with an id is the one that the queue holds. */
  lemma {:induction false} LastSpecWins(specs: seq<TaskSpec>, i: nat)
    requires i < |specs| && LastOfItsId(specs, i)
    ensures specs[i].id in TasksOfSpecs(specs).vals && TasksOfSpecs(specs).vals[specs[i].id] == NewTask(specs[i])
  {
    var n := |specs| - 1;
    if i < n {
      assert specs[..n][i] == specs[i] && specs[n].id != specs[i].id;
      LastSpecWins(specs[..n], i);
    }
  }

  predicate MentionsId(specs: seq<TaskSpec>, id: string) {
    exists i :: 0 <= i < |specs| && specs[i].id == id
  }

  lemma MentionsStep(specs: seq<TaskSpec>, id: string)
    requires specs != []
    ensures MentionsId(specs, id) <==> MentionsId(specs[..|specs| - 1], id) || specs[|specs| - 1].id == id
  {
    var n := |specs| - 1;
    if i :| 0 <= i < |specs| && specs[i].id == id && i < n { assert specs[..n][i].id == id; }
  }

  lemma {:induction false} FirstIdsAre(specs: seq<TaskSpec>, id: string)
    ensures id in FirstIds(specs) <==> MentionsId(specs, id)
  {
    if specs != [] {
      MentionsStep(specs, id);
      FirstIdsAre(specs[..|specs| - 1], id);
    }
  }

  /** Ids come in the order of the specs that first mention them. */
  lemma {:induction false} FirstIdsInOrder(specs: seq<TaskSpec>, i: nat, j: nat)
    requires i < j < |specs| && FirstOfItsId(specs, i) && FirstOfItsId(specs, j)
    ensures exists a, b :: 0 <= a < b < |FirstIds(specs)| && FirstIds(specs)[a] == specs[i].id && FirstIds(specs)[b] == specs[j].id
  {
    var n := |specs| - 1;
    var front, ids := specs[..n], FirstIds(specs);
    if j < n {
      FirstIdsInOrder(front, i, j);
      var a, b :| 0 <= a < b < |FirstIds(front)| && FirstIds(front)[a] == specs[i].id && FirstIds(front)[b] == specs[j].id;
      assert ids[a] == specs[i].id && ids[b] == specs[j].id;
    } else {
      FirstIdsAre(front, specs[i].id);
      FirstIdsAre(front, specs[n].id);
      assert front[i].id == specs[i].id;
      var a :| 0 <= a < |FirstIds(front)| && FirstIds(front)[a] == specs[i].id;
      assert ids[a] == specs[i].id && ids[|ids| - 1] == specs[j].id;
    }
  }

  /** All tasks start queued, in the order in which ids first occur and with the last spec of each id. The
      order by priority has no part in the result. */
  method CreateQueue(specs: seq<TaskSpec>) returns (s: QueueState, ghost discarded: seq<string>)
    ensures s.dispatchOrder == [] && s.completionOrder == []
    ensures s.tasks == TasksOfSpecs(specs) && s.tasks.keys == FirstIds(specs)
    ensures forall i :: 0 <= i < |specs| && LastOfItsId(specs, i) ==>
              specs[i].id in s.tasks.vals && s.tasks.vals[specs[i].id] == NewTask(specs[i])
    ensures discarded == PriorityOrder(specs)
  {
    var tasks: Tasks := OMap([], map[]);
    var order: seq<string> := [];
    for i := 0 to |specs|
      invariant tasks == TasksOfSpecs(specs[..i]) && order == PriorityOrder(specs[..i])
    {
      var spec := specs[i];
      assert specs[..i + 1][..i] == specs[..i];
      var insertIndex := PlaceFor(order, tasks, PriorityOf(spec));
      order := InsertedAt(order, insertIndex, spec.id);
      tasks := tasks.Set(spec.id, NewTask(spec));
    }
    assert specs[..|specs|] == specs;
    KeysAreFirstIds(specs);
    forall i | 0 <= i < |specs| && LastOfItsId(specs, i)
      ensures specs[i].id in tasks.vals && tasks.vals[specs[i].id] == NewTask(specs[i])
    {
      LastSpecWins(specs, i);
    }
    s, discarded := QueueState(tasks, [], []), order;
  }

  // ----- dispatch -----

  predicate AllCompleted(t: Tasks, deps: seq<string>) {
    forall d :: d in deps ==> Has(t, d, Completed)
  }

  predicate SomeFailed(t: Tasks, deps: seq<string>) {
    exists d :: d in deps && Has(t, d, Failed)
  }

  predicate IsReady(t: Tasks, id: string)
    requires id in t.vals
  {
    t.vals[id].status == Queued && AllCompleted(t, DependsOn(t.vals[id].spec))
  }

  /** The ready tasks among the first `k`, in map order. */
  function ReadyIds(t: Tasks, k: nat): seq<string>
    requires k <= |t.keys|
  {
    if k == 0 then []
    else ReadyIds(t, k - 1) + (if IsReady(t, t.keys[k - 1]) then [t.keys[k - 1]] else [])
  }

  /** How many of the first `k` tasks have the given status. */
  function CountOf(t: Tasks, k: nat, status: TaskStatus): nat
    requires k <= |t.keys|
  {
    if k == 0 then 0
    else CountOf(t, k - 1, status) + (if t.vals[t.keys[k - 1]].status == status then 1 else 0)
  }

  function Prefix(s: seq<string>, n: int): seq<string> {
    if n <= 0 then [] else if n >= |s| then s else s[..n]
  }

  /** The tasks a dispatch starts: the first ready ones that fit the free slots. */
  function ToDispatch(t: Tasks, maxConcurrent: int): seq<string> {
    Prefix(ReadyIds(t, |t.keys|), maxConcurrent - CountOf(t, |t.keys|, Dispatched))
  }

  function MarkDispatched(t: Tasks, ids: seq<string>, nowMs: int): (r: Tasks)
    requires forall id :: id in ids ==> id in t.vals
    ensures r.keys == t.keys
    ensures forall id :: id in t.vals ==> id in r.vals
    ensures forall id :: id in t.vals ==>
              r.vals[id] == if id in ids then t.vals[id].(status := Dispatched, dispatchedAtMs := Some(nowMs)) else t.vals[id]
  {
    if ids == [] then t
    else
      var n := |ids| - 1;
      var before := MarkDispatched(t, ids[..n], nowMs);
      before.Set(ids[n], before.vals[ids[n]].(status := Dispatched, dispatchedAtMs := Some(nowMs)))
  }

  lemma {:induction false} ReadyMembers(t: Tasks, k: nat, id: string)
    requires k <= |t.keys|
    ensures id in ReadyIds(t, k) <==> exists j :: 0 <= j < k && t.keys[j] == id && IsReady(t, id)
  {
    if k > 0 { ReadyMembers(t, k - 1, id); }
  }

  lemma ToDispatchReady(t: Tasks, maxConcurrent: int, id: string)
    requires id in ToDispatch(t, maxConcurrent)
    ensures id in t.vals && IsReady(t, id)
  {
    ReadyMembers(t, |t.keys|, id);
  }

  function AfterDispatch(s: QueueState, maxConcurrent: int, nowMs: int): QueueState {
    var ids := ToDispatch(s.tasks, maxConcurrent);
    assert forall id :: id in ids ==> id in s.tasks.vals by {
      forall id | id in ids ensures id in s.tasks.vals { ToDispatchReady(s.tasks, maxConcurrent, id); }
    }
    QueueState(MarkDispatched(s.tasks, ids, nowMs), s.dispatchOrder + ids, s.completionOrder)
  }

  method DispatchNext(s: QueueState, maxConcurrent: int, nowMs: int) returns (taskIds: seq<string>, s': QueueState)
    ensures taskIds == ToDispatch(s.tasks, maxConcurrent)
    ensures s' == AfterDispatch(s, maxConcurrent, nowMs)
  {
    var active := 0;
    for i := 0 to |s.tasks.keys|
      invariant active == CountOf(s.tasks, i, Dispatched)
    {
      if s.tasks.vals[s.tasks.keys[i]].status == Dispatched { active := active + 1; }
    }
    var slots := maxConcurrent - active;
    if slots <= 0 {
      assert s.dispatchOrder + [] == s.dispatchOrder;
      return [], s;
    }
    taskIds := SelectReady(s.tasks, slots);
    forall id | id in taskIds ensures id in s.tasks.vals { ToDispatchReady(s.tasks, maxConcurrent, id); }
    var tasks := Mark(s.tasks, taskIds, nowMs);
    s' := QueueState(tasks, s.dispatchOrder + taskIds, s.completionOrder);
  }

  /** Scans the tasks in map order until the free slots are used up. */
  method SelectReady(t: Tasks, slots: int) returns (taskIds: seq<string>)
    requires slots > 0
    ensures taskIds == Prefix(ReadyIds(t, |t.keys|), slots)
  {
    taskIds := [];
    var i := 0;
    while i < |t.keys|
      invariant 0 <= i <= |t.keys| && |taskIds| <= slots
      invariant taskIds == Prefix(ReadyIds(t, i), slots)
    {
      var id := t.keys[i];
      var task := t.vals[id];
      if task.status == Queued {
        if |taskIds| >= slots {
          break;
        }
        var deps := DependsOn(task.spec);
        if !SomeFailed(t, deps) && AllCompleted(t, deps) {
          taskIds := taskIds + [id];
        }
      }
      i := i + 1;
    }
    PrefixStable(t, i, |t.keys|, slots);
  }

  method Mark(t: Tasks, taskIds: seq<string>, nowMs: int) returns (r: Tasks)
    requires forall id :: id in taskIds ==> id in t.vals
    ensures r == MarkDispatched(t, taskIds, nowMs)
  {
    r := t;
    for j := 0 to |taskIds|
      invariant r == MarkDispatched(t, taskIds[..j], nowMs)
    {
      assert taskIds[..j + 1][..j] == taskIds[..j];
      r := r.Set(taskIds[j], r.vals[taskIds[j]].(status := Dispatched, dispatchedAtMs := Some(nowMs)));
    }
    assert taskIds[..|taskIds|] == taskIds;
  }

  lemma {:induction false} ReadyGrows(t: Tasks, i: nat, n: nat)
    requires i <= n <= |t.keys|
    ensures ReadyIds(t, i) <= ReadyIds(t, n)
  {
    if i < n { ReadyGrows(t, i, n - 1); }
  }

  lemma PrefixStable(t: Tasks, i: nat, n: nat, slots: int)
    requires i <= n <= |t.keys| && (i == n || |Prefix(ReadyIds(t, i), slots)| >= slots)
    ensures Prefix(ReadyIds(t, n), slots) == Prefix(ReadyIds(t, i), slots)
  {
    ReadyGrows(t, i, n);
  }

  // ----- results and failures -----

  function RecordResult(s: QueueState, id: string, result: string, nowMs: int, success: bool): QueueState {
    if id !in s.tasks.vals then s
    else
      var task := s.tasks.vals[id].(
        status := if success then Completed else Failed, completedAtMs := Some(nowMs),
        result := if success then Some(result) else None,
        error := if success then None else Some(Reported(result)));
      QueueState(s.tasks.Set(id, task), s.dispatchOrder, s.completionOrder + [id])
  }

  function FirstFailed(t: Tasks, deps: seq<string>): (d: string)
    requires SomeFailed(t, deps)
    ensures d in deps && Has(t, d, Failed)
  {
    if Has(t, deps[0], Failed) then deps[0]
    else
      assert forall d :: d in deps <==> d == deps[0] || d in deps[1..];
      FirstFailed(t, deps[1..])
  }

  /** Fails the task if it is queued behind a failed dependency. */
  function FailVisit(t: Tasks, id: string): (r: Tasks)
    requires id in t.vals
    ensures r.keys == t.keys
  {
    var task := t.vals[id];
    var deps := DependsOn(task.spec);
    if task.status == Queued && SomeFailed(t, deps) then
      t.Set(id, task.(status := Failed, error := Some(DependencyFailed(FirstFailed(t, deps)))))
    else t
  }

  /** One pass over the first `k` tasks; each visit sees the failures of the visits before it. */
  function FailPass(t: Tasks, k: nat): (r: Tasks)
    requires k <= |t.keys|
    ensures r.keys == t.keys
  {
    if k == 0 then t else FailVisit(FailPass(t, k - 1), t.keys[k - 1])
  }

  function FailAll(t: Tasks): Tasks {
    FailPass(t, |t.keys|)
  }

  method FailBlockedTasks(s: QueueState) returns (s': QueueState)
    ensures s' == s.(tasks := FailAll(s.tasks))
  {
    var tasks := s.tasks;
    var changed := false;
    for i := 0 to |s.tasks.keys|
      invariant tasks == FailPass(s.tasks, i)
      invariant !changed ==> tasks == s.tasks
    {
      var id := tasks.keys[i];
      var task := tasks.vals[id];
      if task.status == Queued {
        var deps := DependsOn(task.spec);
        if SomeFailed(tasks, deps) {
          tasks := tasks.Set(id, task.(status := Failed, error := Some(DependencyFailed(FirstFailed(tasks, deps)))));
          changed := true;
        }
      }
    }
    s' := if changed then QueueState(tasks, s.dispatchOrder, s.completionOrder) else s;
  }

  // ----- reports -----

  datatype ProgressReport = ProgressReport(
    total: nat, queued: nat, dispatched: nat, completed: nat, failed: nat, activeSlots: nat,
    maxConcurrent: int, canDispatch: bool, nextTaskIds: seq<string>)

  function WithStatus(t: Tasks, status: TaskStatus): set<string> {
    set id | id in t.vals && t.vals[id].status == status
  }

  function WithStatusAmong(t: Tasks, k: nat, status: TaskStatus): set<string>
    requires k <= |t.keys|
  {
    set i | 0 <= i < k && t.vals[t.keys[i]].status == status :: t.keys[i]
  }

  lemma AmongStep(t: Tasks, k: nat, status: TaskStatus)
    requires 0 < k <= |t.keys|
    ensures t.keys[k - 1] in t.vals && t.keys[k - 1] !in WithStatusAmong(t, k - 1, status)
    ensures WithStatusAmong(t, k, status) ==
            if t.vals[t.keys[k - 1]].status == status then WithStatusAmong(t, k - 1, status) + {t.keys[k - 1]}
            else WithStatusAmong(t, k - 1, status)
  {
    assert t.keys[k - 1] in t.keys;
  }

  lemma {:induction false} CountsAmong(t: Tasks, k: nat, status: TaskStatus)
    requires k <= |t.keys|
    ensures CountOf(t, k, status) == |WithStatusAmong(t, k, status)|
  {
    hide WithStatusAmong, OMap.Valid;
    if k == 0 {
      NoneAmong(t, status);
    } else {
      CountsAmong(t, k - 1, status);
      AmongStep(t, k, status);
    }
  }

  lemma NoneAmong(t: Tasks, status: TaskStatus)
    ensures WithStatusAmong(t, 0, status) == {}
  {
  }

  /** Counting in map order counts the tasks with the status. */
  lemma CountIsNumber(t: Tasks, status: TaskStatus)
    ensures CountOf(t, |t.keys|, status) == |WithStatus(t, status)|
  {
    CountsAmong(t, |t.keys|, status);
    forall id | id in t.vals ensures exists i :: 0 <= i < |t.keys| && t.keys[i] == id { assert id in t.keys; }
    assert WithStatusAmong(t, |t.keys|, status) == WithStatus(t, status);
  }

  /** Progress names as next exactly the tasks that a dispatch from the same state would start. */
  method ComputeProgress(s: QueueState, maxConcurrent: int) returns (r: ProgressReport)
    ensures r.nextTaskIds == ToDispatch(s.tasks, maxConcurrent)
    ensures r.queued == |WithStatus(s.tasks, Queued)| && r.dispatched == |WithStatus(s.tasks, Dispatched)|
    ensures r.completed == |WithStatus(s.tasks, Completed)| && r.failed == |WithStatus(s.tasks, Failed)|
    ensures r.queued + r.dispatched + r.completed + r.failed == r.total == |s.tasks.keys|
    ensures r.activeSlots == r.dispatched && r.maxConcurrent == maxConcurrent
    ensures r.canDispatch <==> r.dispatched < maxConcurrent && r.queued > 0
  {
    var queued, dispatched, completed, failed := 0, 0, 0, 0;
    hide WithStatus;
    var next: seq<string> := [];
    var n := |s.tasks.keys|;
    for i := 0 to n
      invariant queued == CountOf(s.tasks, i, Queued) && dispatched == CountOf(s.tasks, i, Dispatched)
      invariant completed == CountOf(s.tasks, i, Completed) && failed == CountOf(s.tasks, i, Failed)
      invariant queued + dispatched + completed + failed == i
      invariant next <= ReadyIds(s.tasks, i)
      invariant |next| < |ReadyIds(s.tasks, i)| ==> |next| >= maxConcurrent - dispatched
    {
      var id := s.tasks.keys[i];
      var task := s.tasks.vals[id];
      match task.status {
        case Queued =>
          queued := queued + 1;
          if AllCompleted(s.tasks, DependsOn(task.spec)) && |next| < maxConcurrent - dispatched {
            next := next + [id];
          }
        case Dispatched => dispatched := dispatched + 1;
        case Completed => completed := completed + 1;
        case Failed => failed := failed + 1;
      }
    }
    var nextTaskIds := Prefix(next, maxConcurrent - dispatched);
    CountIsNumber(s.tasks, Queued);
    CountIsNumber(s.tasks, Dispatched);
    CountIsNumber(s.tasks, Completed);
    CountIsNumber(s.tasks, Failed);
    r := ProgressReport(n, queued, dispatched, completed, failed, dispatched, maxConcurrent,
                        dispatched < maxConcurrent && queued > 0, nextTaskIds);
  }

  ghost predicate Finished(t: Tasks) {
    forall id :: id in t.vals ==> t.vals[id].status == Completed || t.vals[id].status == Failed
  }

  method IsComplete(s: QueueState) returns (done: bool)
    ensures done <==> Finished(s.tasks)
  {
    for i := 0 to |s.tasks.keys|
      invariant forall j :: 0 <= j < i ==>
                  var st := s.tasks.vals[s.tasks.keys[j]].status; st == Completed || st == Failed
    {
      var status := s.tasks.vals[s.tasks.keys[i]].status;
      if status == Queued || status == Dispatched { return false; }
    }
    done := true;
  }
}
