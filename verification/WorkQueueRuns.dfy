/** Whole runs of the work queue. `outcome` says how each task would report; a task reports at most once
    per run, so every run that reports only dispatched tasks has such an outcome. */
module WorkQueueRuns {
  import opened OrderedMaps
  import opened TaskGraph
  import opened WorkQueue

  datatype Action = Dispatch(maxConcurrent: int, nowMs: int) | Report(id: string, result: string, nowMs: int) | FailBlocked

  function Step(s: QueueState, a: Action, outcome: string -> bool): QueueState {
    match a
    case Dispatch(maxConcurrent, nowMs) => AfterDispatch(s, maxConcurrent, nowMs)
    case Report(id, result, nowMs) => RecordResult(s, id, result, nowMs, outcome(id))
    case FailBlocked => s.(tasks := FailAll(s.tasks))
  }

  /** Results are reported for dispatched tasks only. */
  ghost predicate Enabled(s: QueueState, a: Action) {
    a.Report? ==> Has(s.tasks, a.id, TaskStatus.Dispatched)
  }

  ghost predicate Runs(s: QueueState, acts: seq<Action>, outcome: string -> bool)
    decreases |acts|
  {
    acts == [] || (Enabled(s, acts[0]) && Runs(Step(s, acts[0], outcome), acts[1..], outcome))
  }

  function Exec(s: QueueState, acts: seq<Action>, outcome: string -> bool): QueueState
    decreases |acts|
  {
    if acts == [] then s else Exec(Step(s, acts[0], outcome), acts[1..], outcome)
  }

  function Start(specs: seq<TaskSpec>): QueueState {
    QueueState(TasksOfSpecs(specs), [], [])
  }

  // ----- what every step keeps -----

  /** Why a task has its status, and its place in the two logs. */
  ghost predicate Explained(s: QueueState, outcome: string -> bool, id: string)
    requires id in s.tasks.vals
  {
    var deps := DependsOn(s.tasks.vals[id].spec);
    match s.tasks.vals[id].status
    case Queued => id !in s.dispatchOrder && id !in s.completionOrder
    case Dispatched => id in s.dispatchOrder && id !in s.completionOrder && AllCompleted(s.tasks, deps)
    case Completed => id in s.dispatchOrder && id in s.completionOrder && AllCompleted(s.tasks, deps) && outcome(id)
    case Failed =>
      || (id in s.dispatchOrder && id in s.completionOrder && AllCompleted(s.tasks, deps) && !outcome(id))
      || (id !in s.dispatchOrder && id !in s.completionOrder && SomeFailed(s.tasks, deps))
  }

  ghost predicate Sound(g: Graph, outcome: string -> bool, s: QueueState) {
    && GraphOfTasks(s.tasks) == g
    && (forall id :: id in s.tasks.vals ==> Explained(s, outcome, id))
    && Distinct(s.dispatchOrder) && Distinct(s.completionOrder)
    && (forall id :: id in s.dispatchOrder ==> id in s.tasks.vals)
    && (forall id :: id in s.completionOrder ==> id in s.tasks.vals)
    && DependenciesFirst(g, s.dispatchOrder)
  }

  lemma {:induction false} StartKeys(specs: seq<TaskSpec>)
    ensures forall id :: id in TasksOfSpecs(specs).vals ==> TasksOfSpecs(specs).vals[id].status == Queued
  {
    if specs != [] { StartKeys(specs[..|specs| - 1]); }
  }

  lemma StartSound(specs: seq<TaskSpec>, outcome: string -> bool)
    ensures Sound(GraphOfTasks(TasksOfSpecs(specs)), outcome, Start(specs))
  {
    StartKeys(specs);
  }

  lemma {:induction false} ReadyDistinct(t: Tasks, k: nat)
    requires k <= |t.keys|
    ensures Distinct(ReadyIds(t, k))
  {
    if k > 0 {
      ReadyDistinct(t, k - 1);
      ReadyMembers(t, k - 1, t.keys[k - 1]);
    }
  }

  lemma DispatchStatus(s: QueueState, maxConcurrent: int, nowMs: int, id: string)
    requires id in s.tasks.vals
    ensures var ids, t' := ToDispatch(s.tasks, maxConcurrent), AfterDispatch(s, maxConcurrent, nowMs).tasks;
            && id in t'.vals && t'.vals[id].spec == s.tasks.vals[id].spec
            && t'.vals[id].status == (if id in ids then TaskStatus.Dispatched else s.tasks.vals[id].status)
            && (id in ids ==> IsReady(s.tasks, id))
  {
    if id in ToDispatch(s.tasks, maxConcurrent) { ToDispatchReady(s.tasks, maxConcurrent, id); }
  }

  lemma DispatchExplained(g: Graph, outcome: string -> bool, s: QueueState, maxConcurrent: int, nowMs: int, id: string)
    requires Sound(g, outcome, s) && id in s.tasks.vals
    ensures id in AfterDispatch(s, maxConcurrent, nowMs).tasks.vals
    ensures Explained(AfterDispatch(s, maxConcurrent, nowMs), outcome, id)
  {
    DispatchStatus(s, maxConcurrent, nowMs, id);
    var deps := DependsOn(s.tasks.vals[id].spec);
    assert Explained(s, outcome, id);
    forall d | d in deps && d in s.tasks.vals
      ensures Has(s.tasks, d, Completed) ==> Has(AfterDispatch(s, maxConcurrent, nowMs).tasks, d, Completed)
      ensures Has(s.tasks, d, Failed) ==> Has(AfterDispatch(s, maxConcurrent, nowMs).tasks, d, Failed)
    {
      DispatchStatus(s, maxConcurrent, nowMs, d);
    }
  }

  lemma DispatchSound(g: Graph, outcome: string -> bool, s: QueueState, maxConcurrent: int, nowMs: int)
    requires Sound(g, outcome, s)
    ensures Sound(g, outcome, AfterDispatch(s, maxConcurrent, nowMs))
  {
    hide Explained, DependenciesFirst, IsReady;
    var ids := ToDispatch(s.tasks, maxConcurrent);
    forall id | id in s.tasks.vals ensures Explained(AfterDispatch(s, maxConcurrent, nowMs), outcome, id) {
      DispatchStatus(s, maxConcurrent, nowMs, id);
      DispatchExplained(g, outcome, s, maxConcurrent, nowMs, id);
    }
    forall id | id in ids ensures id in s.tasks.vals && IsReady(s.tasks, id) { ToDispatchReady(s.tasks, maxConcurrent, id); }
    ReadyDistinct(s.tasks, |s.tasks.keys|);
    DispatchOrdered(g, outcome, s, ids);
  }

  lemma DispatchOrdered(g: Graph, outcome: string -> bool, s: QueueState, ids: seq<string>)
    requires Sound(g, outcome, s) && Distinct(ids) && forall id :: id in ids ==> id in s.tasks.vals && IsReady(s.tasks, id)
    ensures Distinct(s.dispatchOrder + ids) && DependenciesFirst(g, s.dispatchOrder + ids)
  {
    forall i | 0 <= i < |ids| ensures ids[i] !in s.dispatchOrder {
      assert Explained(s, outcome, ids[i]);
    }
    var order := s.dispatchOrder + ids;
    forall i, d | 0 <= i < |order| && d in Deps(g, order[i]) ensures d in order[..i] {
      var m := |s.dispatchOrder|;
      if i < m {
        assert order[..i] == s.dispatchOrder[..i];
      } else {
        assert order[i] in ids && d in DependsOn(s.tasks.vals[order[i]].spec);
        assert Has(s.tasks, d, Completed) && Explained(s, outcome, d);
        assert order[..i] == s.dispatchOrder + ids[..i - m];
      }
    }
  }

  ghost predicate OutcomesStay(t: Tasks, t': Tasks) {
    forall x :: (Has(t, x, Completed) ==> Has(t', x, Completed)) && (Has(t, x, Failed) ==> Has(t', x, Failed))
  }

  lemma DependenciesStay(t: Tasks, t': Tasks, deps: seq<string>)
    requires OutcomesStay(t, t')
    ensures AllCompleted(t, deps) ==> AllCompleted(t', deps)
    ensures SomeFailed(t, deps) ==> SomeFailed(t', deps)
  {
  }

  lemma ReportExplained(s: QueueState, outcome: string -> bool, id: string, result: string, nowMs: int, x: string)
    requires x in s.tasks.vals && Has(s.tasks, id, TaskStatus.Dispatched) && Explained(s, outcome, x) && Explained(s, outcome, id)
    ensures x in RecordResult(s, id, result, nowMs, outcome(id)).tasks.vals
    ensures Explained(RecordResult(s, id, result, nowMs, outcome(id)), outcome, x)
  {
    DependenciesStay(s.tasks, RecordResult(s, id, result, nowMs, outcome(id)).tasks, DependsOn(s.tasks.vals[x].spec));
  }

  lemma ReportSound(g: Graph, outcome: string -> bool, s: QueueState, id: string, result: string, nowMs: int)
    requires Sound(g, outcome, s) && Has(s.tasks, id, TaskStatus.Dispatched)
    ensures Sound(g, outcome, RecordResult(s, id, result, nowMs, outcome(id)))
  {
    var s' := RecordResult(s, id, result, nowMs, outcome(id));
    assert Explained(s, outcome, id);
    forall x | x in s'.tasks.vals ensures Explained(s', outcome, x) {
      assert Explained(s, outcome, x);
      ReportExplained(s, outcome, id, result, nowMs, x);
    }
  }

  ghost predicate IsBlocked(t: Tasks, id: string) {
    Has(t, id, Queued) && SomeFailed(t, DependsOn(t.vals[id].spec))
  }

  /** `t'` differs from `t` only in queued tasks that failed because of a failed dependency. */
  ghost predicate OnlyBlockedFailed(t: Tasks, t': Tasks) {
    forall id :: id in t.vals ==>
      && id in t'.vals && t'.vals[id].spec == t.vals[id].spec
      && (t'.vals[id] == t.vals[id] ||
          (t.vals[id].status == Queued && t'.vals[id].status == Failed && SomeFailed(t', DependsOn(t.vals[id].spec))))
  }

  lemma VisitOnlyBlocked(t: Tasks, id: string)
    requires id in t.vals
    ensures OnlyBlockedFailed(t, FailVisit(t, id))
  {
    if IsBlocked(t, id) {
      var d :| d in DependsOn(t.vals[id].spec) && Has(t, d, Failed);
      assert Has(FailVisit(t, id), d, Failed);
    }
  }

  lemma OnlyBlockedTransitive(t: Tasks, t': Tasks, t'': Tasks)
    requires OnlyBlockedFailed(t, t') && OnlyBlockedFailed(t', t'') && t.keys == t'.keys
    ensures OnlyBlockedFailed(t, t'')
  {
    forall id | id in t.vals && t'.vals[id] != t.vals[id] ensures SomeFailed(t'', DependsOn(t.vals[id].spec)) {
      var d :| d in DependsOn(t.vals[id].spec) && Has(t', d, Failed);
      assert Has(t'', d, Failed);
    }
  }

  lemma KeyHasTask(t: Tasks, j: nat)
    requires j < |t.keys|
    ensures t.keys[j] in t.vals
  {
    assert t.keys[j] in t.keys;
  }

  lemma TaskHasKey(t: Tasks, id: string) returns (j: nat)
    requires id in t.vals
    ensures j < |t.keys| && t.keys[j] == id
  {
    assert id in t.keys;
    j :| 0 <= j < |t.keys| && t.keys[j] == id;
  }

  lemma NoPass(t: Tasks)
    ensures FailPass(t, 0) == t
  {
  }

  lemma PassStep(t: Tasks, k: nat)
    requires 0 < k <= |t.keys|
    ensures t.keys[k - 1] in t.vals && t.keys[k - 1] in FailPass(t, k - 1).vals
    ensures FailPass(t, k) == FailVisit(FailPass(t, k - 1), t.keys[k - 1])
  {
    hide FailVisit;
    KeyHasTask(t, k - 1);
    KeyHasTask(FailPass(t, k - 1), k - 1);
  }

  /** A visit touches no other task. */
  lemma VisitOther(t: Tasks, id: string, x: string)
    requires id in t.vals && x in t.vals && x != id
    ensures x in FailVisit(t, id).vals && FailVisit(t, id).vals[x] == t.vals[x]
  {
  }

  /** What a visit does to the task itself. */
  lemma VisitOwn(t: Tasks, id: string)
    requires id in t.vals
    ensures Has(FailVisit(t, id), id, Queued) ==> Has(t, id, Queued) && !IsBlocked(t, id)
    ensures Has(FailVisit(t, id), id, Failed) ==> Has(t, id, Failed) || IsBlocked(t, id)
    ensures IsBlocked(t, id) ==> Has(FailVisit(t, id), id, Failed)
  {
  }

  lemma OnlyBlockedReflexive(t: Tasks)
    ensures OnlyBlockedFailed(t, t)
  {
  }

  /** A pass only turns queued tasks with a failed dependency into failed ones. */
  lemma {:induction false} FailPassEffect(t: Tasks, k: nat)
    requires k <= |t.keys|
    ensures OnlyBlockedFailed(t, FailPass(t, k))
  {
    hide *;
    NoPass(t);
    OnlyBlockedReflexive(t);
    if k > 0 {
      FailPassEffect(t, k - 1);
      PassStep(t, k);
      VisitOnlyBlocked(FailPass(t, k - 1), t.keys[k - 1]);
      OnlyBlockedTransitive(t, FailPass(t, k - 1), FailPass(t, k));
    }
  }

  lemma FailExplained(s: QueueState, s': QueueState, outcome: string -> bool, id: string)
    requires id in s.tasks.vals && id in s'.tasks.vals && Explained(s, outcome, id) && s'.tasks.keys == s.tasks.keys
    requires OnlyBlockedFailed(s.tasks, s'.tasks) && s'.dispatchOrder == s.dispatchOrder && s'.completionOrder == s.completionOrder
    ensures Explained(s', outcome, id)
  {
    DependenciesStay(s.tasks, s'.tasks, DependsOn(s.tasks.vals[id].spec));
  }

  lemma FailSound(g: Graph, outcome: string -> bool, s: QueueState)
    requires Sound(g, outcome, s)
    ensures Sound(g, outcome, s.(tasks := FailAll(s.tasks)))
  {
    var s' := s.(tasks := FailAll(s.tasks));
    hide Explained, DependenciesFirst, FailPass;
    FailPassEffect(s.tasks, |s.tasks.keys|);
    forall id | id in s'.tasks.vals ensures Explained(s', outcome, id) {
      assert Explained(s, outcome, id);
      FailExplained(s, s', outcome, id);
    }
  }

  lemma StepSound(g: Graph, outcome: string -> bool, s: QueueState, a: Action)
    requires Sound(g, outcome, s) && Enabled(s, a)
    ensures Sound(g, outcome, Step(s, a, outcome))
  {
    match a
    case Dispatch(maxConcurrent, nowMs) => DispatchSound(g, outcome, s, maxConcurrent, nowMs);
    case Report(id, result, nowMs) => ReportSound(g, outcome, s, id, result, nowMs);
    case FailBlocked => FailSound(g, outcome, s);
  }

  /** Every run keeps statuses explained; in particular tasks are dispatched once, and after all the tasks
      they depend on. */
  lemma {:induction false} RunSound(g: Graph, outcome: string -> bool, s: QueueState, acts: seq<Action>)
    requires Sound(g, outcome, s) && Runs(s, acts, outcome)
    ensures Sound(g, outcome, Exec(s, acts, outcome))
    decreases |acts|
  {
    if acts != [] {
      StepSound(g, outcome, s, acts[0]);
      RunSound(g, outcome, Step(s, acts[0], outcome), acts[1..]);
    }
  }

  /** In every run from a fresh queue, no task is dispatched twice and each is dispatched after all the
      tasks it depends on. */
  lemma DispatchOrderIsTopological(specs: seq<TaskSpec>, acts: seq<Action>, outcome: string -> bool)
    requires Runs(Start(specs), acts, outcome)
    ensures var order := Exec(Start(specs), acts, outcome).dispatchOrder;
            Distinct(order) && DependenciesFirst(GraphOfTasks(TasksOfSpecs(specs)), order)
  {
    StartSound(specs, outcome);
    RunSound(GraphOfTasks(TasksOfSpecs(specs)), outcome, Start(specs), acts);
  }

  // ----- the cap -----

  lemma {:induction false} StartOneCounts(t: Tasks, id: string, task: TaskState, k: nat)
    requires id in t.vals && k <= |t.keys| && task.status == TaskStatus.Dispatched && t.vals[id].status != TaskStatus.Dispatched
    ensures CountOf(t.Set(id, task), k, TaskStatus.Dispatched) ==
            CountOf(t, k, TaskStatus.Dispatched) + (if id in t.keys[..k] then 1 else 0)
  {
    if k > 0 {
      StartOneCounts(t, id, task, k - 1);
      assert t.keys[..k] == t.keys[..k - 1] + [t.keys[k - 1]];
    }
  }

  lemma {:induction false} MarkCounts(t: Tasks, ids: seq<string>, nowMs: int)
    requires Distinct(ids) && forall id :: id in ids ==> id in t.vals && t.vals[id].status == Queued
    ensures CountOf(MarkDispatched(t, ids, nowMs), |t.keys|, TaskStatus.Dispatched) ==
            CountOf(t, |t.keys|, TaskStatus.Dispatched) + |ids|
  {
    if ids != [] {
      var n := |ids| - 1;
      MarkCounts(t, ids[..n], nowMs);
      var before := MarkDispatched(t, ids[..n], nowMs);
      assert before.keys[..|t.keys|] == before.keys;
      assert ids[n] in before.keys;
      StartOneCounts(before, ids[n], before.vals[ids[n]].(status := TaskStatus.Dispatched, dispatchedAtMs := Some(nowMs)), |t.keys|);
    }
  }

  /** A dispatch fills the free slots and no more: afterwards either all ready tasks run or the cap is
      reached, and the cap is exceeded only if it was before. */
  lemma DispatchFillsSlots(s: QueueState, maxConcurrent: int, nowMs: int)
    ensures var n, t' := |s.tasks.keys|, AfterDispatch(s, maxConcurrent, nowMs).tasks;
            var before, after := CountOf(s.tasks, n, TaskStatus.Dispatched), CountOf(t', n, TaskStatus.Dispatched);
            && t'.keys == s.tasks.keys
            && (after <= maxConcurrent || after == before)
            && (after >= maxConcurrent || ToDispatch(s.tasks, maxConcurrent) == ReadyIds(s.tasks, n))
  {
    var n := |s.tasks.keys|;
    var ids := ToDispatch(s.tasks, maxConcurrent);
    ReadyDistinct(s.tasks, n);
    forall id | id in ids ensures id in s.tasks.vals && IsReady(s.tasks, id) { ToDispatchReady(s.tasks, maxConcurrent, id); }
    MarkCounts(s.tasks, ids, nowMs);
  }

  // ----- progress -----

  /** Nothing is running, nothing can start however many slots there are, and no failure is left to pass on. */
  ghost predicate Stuck(s: QueueState) {
    && (forall id :: id in s.tasks.vals ==> !Has(s.tasks, id, TaskStatus.Dispatched))
    && (forall maxConcurrent :: maxConcurrent >= 1 ==> ToDispatch(s.tasks, maxConcurrent) == [])
    && FailAll(s.tasks) == s.tasks
  }

  lemma {:induction false} NoneActive(t: Tasks, k: nat)
    requires k <= |t.keys| && forall id :: id in t.vals ==> !Has(t, id, TaskStatus.Dispatched)
    ensures CountOf(t, k, TaskStatus.Dispatched) == 0
  {
    if k > 0 {
      NoneActive(t, k - 1);
      assert t.keys[k - 1] in t.vals;
    }
  }

  /** Until a pass visits a blocked task, the task stays blocked. */
  lemma StillBlocked(t: Tasks, j: nat)
    requires j < |t.keys| && IsBlocked(t, t.keys[j])
    ensures IsBlocked(FailPass(t, j), t.keys[j])
  {
    hide FailPass;
    FailPassEffect(t, j);
    FailPassKeeps(t, j, j);
    var d :| d in DependsOn(t.vals[t.keys[j]].spec) && Has(t, d, Failed);
    assert Has(FailPass(t, j), d, Failed);
  }

  lemma FailPassChanges(t: Tasks, k: nat, j: nat)
    requires j < k <= |t.keys| && IsBlocked(t, t.keys[j])
    ensures t.keys[j] in FailPass(t, k).vals && FailPass(t, k).vals[t.keys[j]].status == Failed
  {
    hide FailPass, FailVisit, IsBlocked;
    StillBlocked(t, j);
    PassStep(t, j + 1);
    VisitOwn(FailPass(t, j), t.keys[j]);
    VisitedIsFinal(t, j, j + 1, k);
  }

  lemma KeysDiffer(t: Tasks, i: nat, j: nat)
    requires i < j < |t.keys|
    ensures t.keys[i] != t.keys[j]
  {
  }

  lemma {:induction false} FailPassKeeps(t: Tasks, k: nat, j: nat)
    requires k <= j < |t.keys|
    ensures t.keys[j] in t.vals && t.keys[j] in FailPass(t, k).vals && FailPass(t, k).vals[t.keys[j]] == t.vals[t.keys[j]]
  {
    hide *;
    KeyHasTask(t, j);
    NoPass(t);
    if k > 0 {
      FailPassKeeps(t, k - 1, j);
      PassStep(t, k);
      KeysDiffer(t, k - 1, j);
      VisitOther(FailPass(t, k - 1), t.keys[k - 1], t.keys[j]);
    }
  }

  /** In a stuck state every queued task waits for a task that is queued too. */
  lemma StuckWaits(g: Graph, outcome: string -> bool, s: QueueState, id: string)
    requires Sound(g, outcome, s) && Stuck(s) && NoMissing(g) && Has(s.tasks, id, Queued)
    ensures exists d :: d in Deps(g, id) && Has(s.tasks, d, Queued)
  {
    var t := s.tasks;
    var j :| 0 <= j < |t.keys| && t.keys[j] == id;
    NoneActive(t, |t.keys|);
    assert ToDispatch(t, 1) == [];
    ReadyMembers(t, |t.keys|, id);
    assert !IsReady(t, id);
    var d :| d in DependsOn(t.vals[id].spec) && !Has(t, d, Completed);
    assert !IsBlocked(t, id) by {
      if IsBlocked(t, id) { FailPassChanges(t, |t.keys|, j); }
    }
    assert d in Deps(g, id) && d in g;
  }

  /** Deadlock freedom: with an acyclic graph and no missing dependency, a run can only stop at completion. */
  lemma StuckIsFinished(g: Graph, outcome: string -> bool, s: QueueState)
    requires Sound(g, outcome, s) && Stuck(s) && Acyclic(g) && NoMissing(g)
    ensures Finished(s.tasks)
  {
    var waiting := set id | id in s.tasks.vals && Has(s.tasks, id, Queued);
    forall id | id in waiting ensures Continues(g, waiting, id) {
      StuckWaits(g, outcome, s, id);
    }
    NoDescent(g, waiting);
    forall id | id in s.tasks.vals ensures s.tasks.vals[id].status == Completed || s.tasks.vals[id].status == Failed {
      assert id !in waiting;
    }
  }

  /** A step that changes nothing is idle; the others use up at most two units per task. */
  ghost function Budget(t: Tasks, k: nat): nat
    requires k <= |t.keys|
  {
    2 * CountOf(t, k, Queued) + CountOf(t, k, TaskStatus.Dispatched)
  }

  ghost function Weight(s: TaskStatus): nat {
    match s
    case Queued => 2
    case Dispatched => 1
    case Completed => 0
    case Failed => 0
  }

  lemma {:induction false} BudgetShrinks(t: Tasks, t': Tasks, k: nat)
    requires k <= |t.keys| && t'.keys == t.keys
    requires forall id :: id in t.vals ==> Weight(t'.vals[id].status) <= Weight(t.vals[id].status)
    ensures Budget(t', k) <= Budget(t, k)
    ensures (exists j :: 0 <= j < k && Weight(t'.vals[t.keys[j]].status) < Weight(t.vals[t.keys[j]].status)) ==> Budget(t', k) < Budget(t, k)
  {
    if k > 0 { BudgetShrinks(t, t', k - 1); }
  }

  ghost predicate Lighter(t: Tasks, t': Tasks, id: string) {
    id in t.vals && id in t'.vals && Weight(t'.vals[id].status) < Weight(t.vals[id].status)
  }

  ghost predicate Productive(s: QueueState, a: Action, outcome: string -> bool) {
    Enabled(s, a) && exists id :: Lighter(s.tasks, Step(s, a, outcome).tasks, id)
  }

  /** The tasks and their number of remaining status changes. */
  lemma StepBudget(s: QueueState, a: Action, outcome: string -> bool)
    requires Enabled(s, a)
    ensures Step(s, a, outcome).tasks.keys == s.tasks.keys
    ensures forall id :: id in s.tasks.vals ==> Weight(Step(s, a, outcome).tasks.vals[id].status) <= Weight(s.tasks.vals[id].status)
  {
    match a
    case Dispatch(maxConcurrent, nowMs) =>
      forall id | id in ToDispatch(s.tasks, maxConcurrent) ensures id in s.tasks.vals && IsReady(s.tasks, id) {
        ToDispatchReady(s.tasks, maxConcurrent, id);
      }
    case Report(id, result, nowMs) =>
    case FailBlocked => FailPassEffect(s.tasks, |s.tasks.keys|);
  }

  lemma ProductiveCosts(s: QueueState, a: Action, outcome: string -> bool)
    requires Productive(s, a, outcome)
    ensures Step(s, a, outcome).tasks.keys == s.tasks.keys
    ensures Budget(Step(s, a, outcome).tasks, |s.tasks.keys|) < Budget(s.tasks, |s.tasks.keys|)
  {
    var t, t' := s.tasks, Step(s, a, outcome).tasks;
    StepBudget(s, a, outcome);
    var id :| Lighter(t, t', id);
    var j :| 0 <= j < |t.keys| && t.keys[j] == id;
    BudgetShrinks(t, t', |t.keys|);
  }

  /** How many steps of a run change anything. */
  ghost function Changes(s: QueueState, acts: seq<Action>, outcome: string -> bool): nat
    decreases |acts|
  {
    if acts == [] then 0
    else
      var next := Step(s, acts[0], outcome);
      Changes(next, acts[1..], outcome) + if next != s then 1 else 0
  }

  lemma ChangeIsProductive(s: QueueState, a: Action, outcome: string -> bool)
    requires Enabled(s, a) && Step(s, a, outcome) != s
    ensures Productive(s, a, outcome)
  {
    match a
    case Dispatch(maxConcurrent, nowMs) =>
      assert s.dispatchOrder + [] == s.dispatchOrder;
      DispatchIsProductive(s, maxConcurrent, nowMs, outcome);
    case Report(id, result, nowMs) =>
      assert Lighter(s.tasks, Step(s, a, outcome).tasks, id);
    case FailBlocked =>
      FailIsProductive(s, outcome);
  }

  /** Termination: in any run at most two steps per task change anything. */
  lemma {:induction false} ProductiveRunsEnd(s: QueueState, acts: seq<Action>, outcome: string -> bool)
    requires Runs(s, acts, outcome)
    ensures Changes(s, acts, outcome) <= Budget(s.tasks, |s.tasks.keys|) <= 2 * |s.tasks.keys|
    decreases |acts|
  {
    hide Budget, Productive, Step;
    BudgetSize(s.tasks, |s.tasks.keys|);
    if acts != [] {
      var next := Step(s, acts[0], outcome);
      if next != s {
        ChangeIsProductive(s, acts[0], outcome);
        ProductiveCosts(s, acts[0], outcome);
      }
      ProductiveRunsEnd(next, acts[1..], outcome);
    }
  }

  lemma {:induction false} BudgetSize(t: Tasks, k: nat)
    requires k <= |t.keys|
    ensures Budget(t, k) <= 2 * k
  {
    if k > 0 { BudgetSize(t, k - 1); }
  }

  lemma DispatchIsProductive(s: QueueState, m: int, nowMs: int, outcome: string -> bool)
    requires ToDispatch(s.tasks, m) != []
    ensures Productive(s, Dispatch(m, nowMs), outcome)
  {
    var id := ToDispatch(s.tasks, m)[0];
    ToDispatchReady(s.tasks, m, id);
    DispatchStatus(s, m, nowMs, id);
    assert Lighter(s.tasks, Step(s, Dispatch(m, nowMs), outcome).tasks, id);
  }

  lemma FailIsProductive(s: QueueState, outcome: string -> bool)
    requires FailAll(s.tasks) != s.tasks
    ensures Productive(s, FailBlocked, outcome)
  {
    var t, t' := s.tasks, FailAll(s.tasks);
    FailPassEffect(t, |t.keys|);
    assert t'.vals != t.vals;
    assert forall id :: id in t'.vals <==> id in t'.keys;
    var id :| id in t.vals && t'.vals[id] != t.vals[id];
    assert Lighter(t, Step(s, FailBlocked, outcome).tasks, id);
  }

  /** Where the queue is not stuck, some step is productive. */
  lemma NextProductive(s: QueueState, outcome: string -> bool) returns (a: Action)
    requires !Stuck(s)
    ensures Productive(s, a, outcome)
  {
    if id :| id in s.tasks.vals && Has(s.tasks, id, TaskStatus.Dispatched) {
      a := Report(id, "", 0);
      assert Lighter(s.tasks, Step(s, a, outcome).tasks, id);
    } else if m :| m >= 1 && ToDispatch(s.tasks, m) != [] {
      a := Dispatch(m, 0);
      DispatchIsProductive(s, m, 0, outcome);
    } else {
      a := FailBlocked;
      FailIsProductive(s, outcome);
    }
  }

  /** From every state some run reaches a stuck state. */
  lemma {:induction false} Drive(s: QueueState, outcome: string -> bool) returns (acts: seq<Action>)
    ensures Runs(s, acts, outcome) && Stuck(Exec(s, acts, outcome))
    decreases Budget(s.tasks, |s.tasks.keys|)
  {
    if Stuck(s) {
      acts := [];
    } else {
      var a := NextProductive(s, outcome);
      ProductiveCosts(s, a, outcome);
      var rest := Drive(Step(s, a, outcome), outcome);
      acts := [a] + rest;
      assert acts[1..] == rest;
    }
  }

  // ----- how a finished run ends -----

  lemma {:induction false} CompletedPath(g: Graph, outcome: string -> bool, s: QueueState, p: seq<string>)
    requires Sound(g, outcome, s) && IsPath(g, p) && Has(s.tasks, p[0], Completed)
    ensures outcome(p[|p| - 1])
  {
    assert Explained(s, outcome, p[0]);
    if |p| > 1 {
      PathTail(g, p);
      CompletedPath(g, outcome, s, p[1..]);
    }
  }

  ghost predicate AllSucceed(g: Graph, outcome: string -> bool, v: string) {
    forall p :: IsPath(g, p) && p[0] == v ==> outcome(p[|p| - 1])
  }

  lemma SucceedPassesOn(g: Graph, outcome: string -> bool, v: string, d: string)
    requires AllSucceed(g, outcome, v) && d in Deps(g, v)
    ensures outcome(v) && AllSucceed(g, outcome, d)
  {
    assert IsPath(g, [v]);
    forall p | IsPath(g, p) && p[0] == d ensures outcome(p[|p| - 1]) {
      PathCons(g, v, p);
      assert ([v] + p)[0] == v;
    }
  }

  lemma FailedHasCulprit(g: Graph, outcome: string -> bool, s: QueueState, id: string)
    requires Sound(g, outcome, s) && Acyclic(g) && Has(s.tasks, id, Failed)
    ensures !AllSucceed(g, outcome, id)
  {
    var odd := set x | x in s.tasks.vals && Has(s.tasks, x, Failed) && AllSucceed(g, outcome, x);
    forall x | x in odd ensures Continues(g, odd, x) {
      assert Explained(s, outcome, x);
      assert outcome(x) by { assert IsPath(g, [x]); }
      var d :| d in DependsOn(s.tasks.vals[x].spec) && Has(s.tasks, d, Failed);
      SucceedPassesOn(g, outcome, x, d);
    }
    NoDescent(g, odd);
    assert id !in odd;
  }

  /** A finished task has completed exactly when it and everything it depends on, directly or not,
      reported success. */
  lemma FinalStatus(g: Graph, outcome: string -> bool, s: QueueState, id: string)
    requires Sound(g, outcome, s) && Acyclic(g) && Finished(s.tasks) && id in g
    ensures Has(s.tasks, id, Completed) <==> AllSucceed(g, outcome, id)
  {
    if Has(s.tasks, id, Completed) {
      forall p | IsPath(g, p) && p[0] == id ensures outcome(p[|p| - 1]) { CompletedPath(g, outcome, s, p); }
    } else {
      FailedHasCulprit(g, outcome, s, id);
    }
  }

  // ----- exactly when every run completes -----

  ghost predicate AlwaysCompletes(specs: seq<TaskSpec>) {
    forall outcome: string -> bool, acts: seq<Action> ::
      Runs(Start(specs), acts, outcome) && Stuck(Exec(Start(specs), acts, outcome)) ==>
        Finished(Exec(Start(specs), acts, outcome).tasks)
  }

  ghost predicate NoFailures(t: Tasks) {
    forall id :: id in t.vals ==> t.vals[id].status != Failed
  }

  lemma VisitFree(t: Tasks, id: string)
    requires id in t.vals && !IsBlocked(t, id)
    ensures FailVisit(t, id) == t
  {
  }

  lemma {:induction false} PassWithoutFailures(t: Tasks, k: nat)
    requires k <= |t.keys| && forall id :: id in t.vals ==> !IsBlocked(t, id)
    ensures FailPass(t, k) == t
  {
    hide *;
    NoPass(t);
    if k > 0 {
      PassWithoutFailures(t, k - 1);
      PassStep(t, k);
      VisitFree(t, t.keys[k - 1]);
    }
  }

  lemma {:induction false} SuccessHasNoFailures(s: QueueState, acts: seq<Action>, outcome: string -> bool)
    requires Runs(s, acts, outcome) && NoFailures(s.tasks) && forall id :: outcome(id)
    ensures NoFailures(Exec(s, acts, outcome).tasks)
    decreases |acts|
  {
    if acts != [] {
      match acts[0] {
        case Dispatch(m, now) =>
          forall id | id in s.tasks.vals ensures Step(s, acts[0], outcome).tasks.vals[id].status != Failed {
            DispatchStatus(s, m, now, id);
          }
        case Report(id, result, now) => assert outcome(id);
        case FailBlocked =>
          PassWithoutFailures(s.tasks, |s.tasks.keys|);
      }
      SuccessHasNoFailures(Step(s, acts[0], outcome), acts[1..], outcome);
    }
  }

  lemma AllCompletedIsOrdered(g: Graph, outcome: string -> bool, s: QueueState)
    requires Sound(g, outcome, s) && forall id :: id in s.tasks.vals ==> Has(s.tasks, id, Completed)
    ensures Acyclic(g) && NoMissing(g)
  {
    forall id | id in g ensures id in s.dispatchOrder && AllCompleted(s.tasks, g[id]) {
      assert Explained(s, outcome, id);
    }
    OrderedIsAcyclic(g, s.dispatchOrder);
  }

  ghost predicate Succeeds(outcome: string -> bool) {
    forall id :: outcome(id)
  }

  ghost predicate AllDone(t: Tasks) {
    forall id :: id in t.vals ==> Has(t, id, Completed)
  }

  /** Every run in which all reports are successes can only stop with all tasks completed. */
  ghost predicate SuccessCompletes(specs: seq<TaskSpec>) {
    forall outcome: string -> bool, acts: seq<Action> ::
      Succeeds(outcome) && Runs(Start(specs), acts, outcome) && Stuck(Exec(Start(specs), acts, outcome)) ==>
        AllDone(Exec(Start(specs), acts, outcome).tasks)
  }

  lemma WellFormedCompletes(specs: seq<TaskSpec>)
    requires var g := GraphOfTasks(TasksOfSpecs(specs)); Acyclic(g) && NoMissing(g)
    ensures AlwaysCompletes(specs)
  {
    var g := GraphOfTasks(TasksOfSpecs(specs));
    forall outcome: string -> bool, acts | Runs(Start(specs), acts, outcome) && Stuck(Exec(Start(specs), acts, outcome))
      ensures Finished(Exec(Start(specs), acts, outcome).tasks)
    {
      StartSound(specs, outcome);
      RunSound(g, outcome, Start(specs), acts);
      StuckIsFinished(g, outcome, Exec(Start(specs), acts, outcome));
    }
  }

  lemma FinishedIsDone(specs: seq<TaskSpec>)
    requires AlwaysCompletes(specs)
    ensures SuccessCompletes(specs)
  {
    forall outcome: string -> bool, acts |
      Succeeds(outcome) && Runs(Start(specs), acts, outcome) && Stuck(Exec(Start(specs), acts, outcome))
      ensures AllDone(Exec(Start(specs), acts, outcome).tasks)
    {
      StartKeys(specs);
      SuccessHasNoFailures(Start(specs), acts, outcome);
      assert Finished(Exec(Start(specs), acts, outcome).tasks);
    }
  }

  lemma DoneIsWellFormed(specs: seq<TaskSpec>)
    requires SuccessCompletes(specs)
    ensures var g := GraphOfTasks(TasksOfSpecs(specs)); Acyclic(g) && NoMissing(g)
  {
    var g := GraphOfTasks(TasksOfSpecs(specs));
    var fine: string -> bool := _ => true;
    var acts := Drive(Start(specs), fine);
    StartSound(specs, fine);
    RunSound(g, fine, Start(specs), acts);
    assert Succeeds(fine) && AllDone(Exec(Start(specs), acts, fine).tasks);
    AllCompletedIsOrdered(g, fine, Exec(Start(specs), acts, fine));
  }

  /** Three things are the same: every run that stops has finished all tasks, whatever they report; every run that
      stops has completed all tasks when all reports are successes; the dependency graph is acyclic and mentions
      no unknown task. */
  lemma CompletesIffWellFormed(specs: seq<TaskSpec>)
    ensures var g := GraphOfTasks(TasksOfSpecs(specs));
            && (AlwaysCompletes(specs) <==> Acyclic(g) && NoMissing(g))
            && (SuccessCompletes(specs) <==> Acyclic(g) && NoMissing(g))
  {
    var g := GraphOfTasks(TasksOfSpecs(specs));
    if Acyclic(g) && NoMissing(g) {
      WellFormedCompletes(specs);
      FinishedIsDone(specs);
    }
    if AlwaysCompletes(specs) { FinishedIsDone(specs); }
    if SuccessCompletes(specs) { DoneIsWellFormed(specs); }
  }

  // ----- one pass of failure propagation -----

  lemma {:induction false} VisitedIsFinal(t: Tasks, j: nat, k: nat, m: nat)
    requires j < k <= m <= |t.keys|
    ensures t.keys[j] in FailPass(t, k).vals && t.keys[j] in FailPass(t, m).vals
    ensures FailPass(t, m).vals[t.keys[j]] == FailPass(t, k).vals[t.keys[j]]
  {
    hide *;
    KeyHasTask(FailPass(t, k), j);
    if k < m {
      VisitedIsFinal(t, j, k, m - 1);
      PassStep(t, m);
      KeysDiffer(t, j, m - 1);
      VisitOther(FailPass(t, m - 1), t.keys[m - 1], t.keys[j]);
    }
  }

  /** Where a task is listed before one that it depends on, it depends itself on all that the other depends on. */
  ghost predicate Shortcut(t: Tasks, i: nat, j: nat, z: string)
    requires i < j < |t.keys|
  {
    var x, y := t.keys[i], t.keys[j];
    y in DependsOn(t.vals[x].spec) && z in DependsOn(t.vals[y].spec) && z in t.vals && z != x && z != y ==>
      z in DependsOn(t.vals[x].spec)
  }

  ghost predicate ShortcutsListed(t: Tasks) {
    forall i, j, z :: 0 <= i < j < |t.keys| ==> Shortcut(t, i, j, z)
  }

  /** The same tasks in the same order, with whatever statuses. */
  ghost predicate SameShape(t: Tasks, t': Tasks) {
    t'.keys == t.keys && forall id :: id in t.vals ==> id in t'.vals && t'.vals[id].spec == t.vals[id].spec
  }

  /** A task that is still queued after the pass had no failed dependency when it was visited. */
  lemma QueuedWasFree(t: Tasks, i: nat)
    requires i < |t.keys| && Has(FailAll(t), t.keys[i], Queued)
    ensures t.keys[i] in t.vals && !SomeFailed(FailPass(t, i), DependsOn(t.vals[t.keys[i]].spec))
  {
    hide FailPass, FailVisit, SomeFailed, DependsOn;
    VisitedIsFinal(t, i, i + 1, |t.keys|);
    FailPassKeeps(t, i, i);
    PassStep(t, i + 1);
    VisitOwn(FailPass(t, i), t.keys[i]);
  }

  /** A task that the pass failed had a failed dependency when it was visited. */
  lemma FailedHadCause(t: Tasks, j: nat) returns (z: string)
    requires j < |t.keys| && Has(FailAll(t), t.keys[j], Failed) && !Has(t, t.keys[j], Failed)
    ensures t.keys[j] in t.vals && z in DependsOn(t.vals[t.keys[j]].spec) && Has(FailPass(t, j), z, Failed) && z != t.keys[j]
  {
    hide FailPass, FailVisit, DependsOn;
    VisitedIsFinal(t, j, j + 1, |t.keys|);
    FailPassKeeps(t, j, j);
    PassStep(t, j + 1);
    VisitOwn(FailPass(t, j), t.keys[j]);
    z :| z in DependsOn(t.vals[t.keys[j]].spec) && Has(FailPass(t, j), z, Failed);
  }

  /** With shortcuts listed, a failure later in the list does not leave an earlier dependant queued. */
  lemma {:induction false} NoneMissed(t: Tasks, i: nat, j: nat)
    requires ShortcutsListed(t) && i < j < |t.keys| && Has(FailAll(t), t.keys[i], Queued)
    requires t.keys[i] in t.vals && t.keys[j] in DependsOn(t.vals[t.keys[i]].spec)
    ensures !Has(FailAll(t), t.keys[j], Failed)
    decreases j
  {
    hide FailPass, DependsOn;
    var x, y := t.keys[i], t.keys[j];
    if Has(FailAll(t), y, Failed) {
      QueuedWasFree(t, i);
      FailPassKeeps(t, i, j);
      var z := FailedHadCause(t, j);
      VisitedIsFinal(t, i, j, |t.keys|);
      assert Has(FailPass(t, j), x, Queued) && z != x && z in FailPass(t, j).keys && Shortcut(t, i, j, z);
      var k :| 0 <= k < |t.keys| && t.keys[k] == z;
      if k < i {
        VisitedIsFinal(t, k, i, j);
      } else if k < j {
        VisitedIsFinal(t, k, j, |t.keys|);
        NoneMissed(t, i, k);
      } else {
        FailPassKeeps(t, j, k);
        FailPassKeeps(t, i, k);
      }
    }
  }

  lemma NoneBlocked(t: Tasks, i: nat)
    requires ShortcutsListed(t) && i < |t.keys|
    ensures !IsBlocked(FailAll(t), t.keys[i])
  {
    hide FailPass, DependsOn;
    var x := t.keys[i];
    if IsBlocked(FailAll(t), x) {
      FailPassEffect(t, |t.keys|);
      QueuedWasFree(t, i);
      var d :| d in DependsOn(t.vals[x].spec) && Has(FailAll(t), d, Failed);
      assert d in FailAll(t).keys;
      var j :| 0 <= j < |t.keys| && t.keys[j] == d;
      if j < i {
        VisitedIsFinal(t, j, i, |t.keys|);
      } else {
        NoneMissed(t, i, j);
      }
    }
  }

  lemma ListedMakesOnePassEnough(t: Tasks)
    requires ShortcutsListed(t)
    ensures FailAll(FailAll(t)) == FailAll(t)
  {
    forall id | id in FailAll(t).vals ensures !IsBlocked(FailAll(t), id) {
      assert id in FailAll(t).keys;
      var i :| 0 <= i < |t.keys| && t.keys[i] == id;
      NoneBlocked(t, i);
    }
    PassWithoutFailures(FailAll(t), |t.keys|);
  }

  /** Only `z` has failed, `x` and `y` are queued, and all others are completed. */
  function OneFailure(t: Tasks, x: string, y: string, z: string): Tasks {
    OMap(t.keys, map id | id in t.vals ::
      t.vals[id].(status := if id == z then Failed else if id == x || id == y then Queued else Completed))
  }

  lemma OneFailureFacts(t: Tasks, i: nat, j: nat, z: string)
    requires i < j < |t.keys| && !Shortcut(t, i, j, z)
    ensures var x, y := t.keys[i], t.keys[j]; var t' := OneFailure(t, x, y, z);
            && SameShape(t, t') && x in t'.vals && x in t.vals && y in t.vals && IsBlocked(t', y) && Has(t', x, Queued)
            && y in DependsOn(t.vals[x].spec) && z !in DependsOn(t.vals[x].spec)
            && forall id :: id in t'.vals && id != x && id != y && id != z ==> t'.vals[id].status == Completed
  {
    var x, y := t.keys[i], t.keys[j];
    KeyHasTask(t, i);
    KeyHasTask(t, j);
    KeysDiffer(t, i, j);
    assert Has(OneFailure(t, x, y, z), z, Failed);
  }

  /** Up to the earlier task's visit the pass fails nothing. */
  lemma NothingFailsYet(t: Tasks, i: nat, j: nat, z: string)
    requires i < j < |t.keys| && t.keys[i] in t.vals && z !in DependsOn(t.vals[t.keys[i]].spec)
    requires Has(t, t.keys[i], Queued) && Has(t, t.keys[j], Queued)
    requires forall id :: id in t.vals && id != t.keys[i] && id != t.keys[j] && id != z ==> t.vals[id].status == Completed
    ensures !SomeFailed(FailPass(t, i), DependsOn(t.vals[t.keys[i]].spec))
  {
    hide FailPass, DependsOn;
    FailPassEffect(t, i);
    FailPassKeeps(t, i, i);
    FailPassKeeps(t, i, j);
    forall d | Has(FailPass(t, i), d, Failed) ensures d == z {
      var k := TaskHasKey(FailPass(t, i), d);
      KeyHasTask(t, k);
    }
  }

  lemma MissingShortcutNeedsMore(t: Tasks, i: nat, j: nat, z: string)
    requires i < j < |t.keys| && !Shortcut(t, i, j, z)
    ensures var t' := OneFailure(t, t.keys[i], t.keys[j], z); SameShape(t, t') && FailAll(FailAll(t')) != FailAll(t')
  {
    hide FailPass, DependsOn, OneFailure, Shortcut;
    var t' := OneFailure(t, t.keys[i], t.keys[j], z);
    OneFailureFacts(t, i, j, z);
    NothingFailsYet(t', i, j, z);
    VisitUnblocked(t', i);
    VisitedIsFinal(t', i, i + 1, |t.keys|);
    FailPassChanges(t', |t.keys|, j);
    StillWaits(t', FailAll(t'), t.keys[i], t.keys[j]);
    FailPassChanges(FailAll(t'), |t.keys|, i);
  }

  lemma StillWaits(t: Tasks, t': Tasks, x: string, y: string)
    requires Has(t, x, Queued) && x in t'.vals && t'.vals[x] == t.vals[x] && y in DependsOn(t.vals[x].spec) && Has(t', y, Failed)
    ensures IsBlocked(t', x)
  {
  }

  lemma VisitUnblocked(t: Tasks, i: nat)
    requires i < |t.keys| && t.keys[i] in t.vals && !SomeFailed(FailPass(t, i), DependsOn(t.vals[t.keys[i]].spec))
    ensures t.keys[i] in FailPass(t, i + 1).vals && FailPass(t, i + 1).vals[t.keys[i]] == t.vals[t.keys[i]]
  {
    hide FailPass, FailVisit;
    FailPassKeeps(t, i, i);
    PassStep(t, i + 1);
    VisitFree(FailPass(t, i), t.keys[i]);
  }

  /** One pass is the fixed point, whatever the statuses, exactly when each task that is listed before a dependency
      names that dependency's own dependencies as well. */
  lemma OnePassIff(t: Tasks)
    ensures (forall t': Tasks :: SameShape(t, t') ==> FailAll(FailAll(t')) == FailAll(t')) <==> ShortcutsListed(t)
  {
    if ShortcutsListed(t) {
      forall t': Tasks | SameShape(t, t') ensures FailAll(FailAll(t')) == FailAll(t') {
        assert ShortcutsListed(t') by {
          forall i, j, z | 0 <= i < j < |t'.keys| ensures Shortcut(t', i, j, z) { assert Shortcut(t, i, j, z); }
        }
        ListedMakesOnePassEnough(t');
      }
    } else {
      var i, j, z :| 0 <= i < j < |t.keys| && !Shortcut(t, i, j, z);
      MissingShortcutNeedsMore(t, i, j, z);
    }
  }

  /** Map order lists the dependencies of a task, as far as they are tasks, before it. */
  ghost predicate ListsDependenciesFirst(t: Tasks) {
    forall j, d :: 0 <= j < |t.keys| && d in DependsOn(t.vals[t.keys[j]].spec) && d in t.vals ==> d in t.keys[..j]
  }

  lemma NotListedLater(t: Tasks, i: nat, j: nat)
    requires ListsDependenciesFirst(t) && i < j < |t.keys|
    ensures t.keys[i] in t.vals && t.keys[j] !in DependsOn(t.vals[t.keys[i]].spec)
  {
    KeyHasTask(t, i);
    KeyHasTask(t, j);
    hide DependsOn;
  }

  /** When tasks are listed after their dependencies, a single pass already passes every failure on. */
  lemma OnePassSuffices(t: Tasks)
    requires ListsDependenciesFirst(t)
    ensures FailAll(FailAll(t)) == FailAll(t)
  {
    forall i, j, z | 0 <= i < j < |t.keys| ensures Shortcut(t, i, j, z) { NotListedLater(t, i, j); }
    ListedMakesOnePassEnough(t);
  }

  /** Two tasks listed before the one they wait for, which fails. */
  function Backwards(): seq<TaskSpec> {
    [TaskSpec("a", None, Some(["b"])), TaskSpec("b", None, Some(["c"])), TaskSpec("c", None, None)]
  }

  lemma {:induction false} TasksStep(specs: seq<TaskSpec>, last: TaskSpec)
    ensures TasksOfSpecs(specs + [last]) == TasksOfSpecs(specs).Set(last.id, NewTask(last))
  {
    assert (specs + [last])[..|specs|] == specs;
  }

  lemma BackwardsTasks()
    ensures var a, b, c := NewTask(Backwards()[0]), NewTask(Backwards()[1]), NewTask(Backwards()[2]);
            TasksOfSpecs(Backwards()) == OMap(["a", "b", "c"], map["a" := a, "b" := b, "c" := c])
  {
    hide NewTask, TasksOfSpecs, OMap.Valid;
    var specs := Backwards();
    NoTasks();
    TasksStep([], specs[0]);
    TasksStep([specs[0]], specs[1]);
    TasksStep([specs[0], specs[1]], specs[2]);
    assert [] + [specs[0]] == [specs[0]] && [specs[0]] + [specs[1]] == [specs[0], specs[1]] && [specs[0], specs[1]] + [specs[2]] == specs;
  }

  lemma NoTasks()
    ensures TasksOfSpecs([]) == OMap([], map[])
  {
  }

  /** Listed the other way round, a run can come to a failure that needs a second pass. */
  lemma OnePassMayNotSuffice()
    ensures var outcome: string -> bool := _ => false;
            var acts := [Dispatch(1, 0), Report("c", "", 0)];
            && Runs(Start(Backwards()), acts, outcome)
            && var t := Exec(Start(Backwards()), acts, outcome).tasks; FailAll(FailAll(t)) != FailAll(t)
  {
    var outcome: string -> bool := _ => false;
    var s, failed := Start(Backwards()), FailedBackwards();
    assert Exec(s, [Dispatch(1, 0), Report("c", "", 0)], outcome).tasks == failed && Runs(s, [Dispatch(1, 0), Report("c", "", 0)], outcome) by {
      FirstStep();
      SecondStep(outcome);
      RunOfTwo(s, Dispatch(1, 0), Report("c", "", 0), outcome);
    }
    BackwardsIsOneFailure();
    MissingShortcutNeedsMore(failed, 0, 1, "c");
  }

  lemma RunOfTwo(s: QueueState, a: Action, b: Action, outcome: string -> bool)
    requires Enabled(s, a) && Enabled(Step(s, a, outcome), b)
    ensures Runs(s, [a, b], outcome) && Exec(s, [a, b], outcome) == Step(Step(s, a, outcome), b, outcome)
  {
    hide Step, Enabled;
    var s', s'' := Step(s, a, outcome), Step(Step(s, a, outcome), b, outcome);
    assert [a, b][1..] == [b] && [b][1..] == [];
    assert Runs(s'', [], outcome) && Exec(s'', [], outcome) == s'';
    assert Runs(s', [b], outcome) && Exec(s', [b], outcome) == s'';
  }

  /** The tasks of the reversed listing, the last one with the given state. */
  function BackwardsWith(c: TaskState): Tasks {
    OMap(["a", "b", "c"], map["a" := NewTask(Backwards()[0]), "b" := NewTask(Backwards()[1]), "c" := c])
  }

  function FailedBackwards(): Tasks {
    BackwardsWith(TaskState(Backwards()[2], Failed, Some(0), Some(0), None, Some(Reported(""))))
  }

  lemma FirstStep()
    ensures AfterDispatch(Start(Backwards()), 1, 0) ==
            QueueState(BackwardsWith(TaskState(Backwards()[2], TaskStatus.Dispatched, Some(0), None, None, None)), ["c"], [])
  {
    hide TasksOfSpecs, OMap.Valid, ToDispatch;
    BackwardsTasks();
    var t := TasksOfSpecs(Backwards());
    OnlyLastIsReady(t);
    MarkOne(t, "c", 0);
  }

  lemma MarkOne(t: Tasks, id: string, nowMs: int)
    requires id in t.vals
    ensures MarkDispatched(t, [id], nowMs) == t.Set(id, t.vals[id].(status := TaskStatus.Dispatched, dispatchedAtMs := Some(nowMs)))
  {
    assert [id][..0] == [];
  }

  lemma SecondStep(outcome: string -> bool)
    requires !outcome("c")
    ensures var s := QueueState(BackwardsWith(TaskState(Backwards()[2], TaskStatus.Dispatched, Some(0), None, None, None)), ["c"], []);
            Enabled(s, Report("c", "", 0)) && Step(s, Report("c", "", 0), outcome).tasks == FailedBackwards()
  {
  }

  lemma BackwardsIsOneFailure()
    ensures OneFailure(FailedBackwards(), "a", "b", "c") == FailedBackwards() && !Shortcut(FailedBackwards(), 0, 1, "c")
  {
    var t := FailedBackwards();
    assert OneFailure(t, "a", "b", "c").vals == t.vals;
    assert DependsOn(Backwards()[0]) == ["b"] && DependsOn(Backwards()[1]) == ["c"];
  }

  lemma OnlyLastIsReady(t: Tasks)
    requires t == TasksOfSpecs(Backwards())
    ensures ToDispatch(t, 1) == ["c"]
  {
    hide TasksOfSpecs, OMap.Valid;
    BackwardsTasks();
    assert !Has(t, "b", Completed) && !Has(t, "c", Completed);
    assert DependsOn(t.vals["a"].spec) == ["b"] && DependsOn(t.vals["b"].spec) == ["c"] && DependsOn(t.vals["c"].spec) == [];
    assert "b" in ["b"] && "c" in ["c"];
    assert !IsReady(t, "a") && !IsReady(t, "b") && IsReady(t, "c");
    assert ReadyIds(t, 3) == ["c"] by {
      hide IsReady, DependsOn, Has;
      assert ReadyIds(t, 0) == [] && ReadyIds(t, 1) == [] && ReadyIds(t, 2) == [];
    }
    NoneActive(t, 3);
  }
}
