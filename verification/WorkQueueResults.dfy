/** What a run of the work queue stores with its tasks: the results, errors and times that were reported. */
module WorkQueueResults {
  import opened OrderedMaps
  import opened TaskGraph
  import opened WorkQueue
  import opened WorkQueueRuns

  predicate ReportsOn(a: Action, id: string) {
    a.Report? && a.id == id
  }

  /** Action `i` is the one report on the task. */
  ghost predicate OnlyReport(acts: seq<Action>, i: nat, id: string) {
    i < |acts| && ReportsOn(acts[i], id) && forall j :: 0 <= j < |acts| && ReportsOn(acts[j], id) ==> j == i
  }

  ghost predicate Unreported(acts: seq<Action>, id: string) {
    forall j :: 0 <= j < |acts| ==> !ReportsOn(acts[j], id)
  }

  /** The task carries what the report said. */
  predicate Carries(task: TaskState, a: Action, outcome: bool)
    requires a.Report?
  {
    && task.completedAtMs == Some(a.nowMs)
    && (if outcome then task.status == Completed && task.result == Some(a.result) && task.error == None
        else task.status == Failed && task.result == None && task.error == Some(Reported(a.result)))
  }

  /** The task failed unreported, and its error names a dependency that has failed. */
  ghost predicate Blames(t: Tasks, task: TaskState) {
    && task.status == Failed && task.result == None && task.completedAtMs == None
    && task.error.Some? && task.error.value.DependencyFailed?
    && task.error.value.id in DependsOn(task.spec) && Has(t, task.error.value.id, Failed)
  }

  predicate Blank(task: TaskState) {
    task.result == None && task.error == None && task.completedAtMs == None
  }

  /** What a task carries after the actions `acts`. */
  ghost predicate Documented(t: Tasks, acts: seq<Action>, outcome: string -> bool, id: string)
    requires id in t.vals
  {
    var task := t.vals[id];
    match task.status
    case Queued => Blank(task) && Unreported(acts, id)
    case Dispatched => Blank(task) && Unreported(acts, id)
    case Completed => exists i: nat :: OnlyReport(acts, i, id) && Carries(task, acts[i], outcome(id)) && outcome(id)
    case Failed =>
      || (exists i: nat :: OnlyReport(acts, i, id) && Carries(task, acts[i], outcome(id)) && !outcome(id))
      || (Unreported(acts, id) && Blames(t, task))
  }

  ghost predicate AllDocumented(t: Tasks, acts: seq<Action>, outcome: string -> bool) {
    forall id :: id in t.vals ==> Documented(t, acts, outcome, id)
  }

  // ----- one action -----

  lemma UnreportedStep(acts: seq<Action>, a: Action, id: string)
    ensures Unreported(acts + [a], id) <==> Unreported(acts, id) && !ReportsOn(a, id)
  {
    if Unreported(acts + [a], id) {
      assert (acts + [a])[|acts|] == a;
      forall j | 0 <= j < |acts| ensures !ReportsOn(acts[j], id) { assert (acts + [a])[j] == acts[j]; }
    }
  }

  lemma OnlyReportStays(acts: seq<Action>, a: Action, i: nat, id: string)
    requires OnlyReport(acts, i, id) && !ReportsOn(a, id)
    ensures OnlyReport(acts + [a], i, id) && (acts + [a])[i] == acts[i]
  {
  }

  /** A task that the action does not touch keeps its documents. */
  lemma StaysDocumented(t: Tasks, t': Tasks, acts: seq<Action>, a: Action, outcome: string -> bool, id: string)
    requires id in t.vals && Documented(t, acts, outcome, id) && id in t'.vals && t'.vals[id] == t.vals[id]
    requires !ReportsOn(a, id) && OutcomesStay(t, t')
    ensures Documented(t', acts + [a], outcome, id)
  {
    UnreportedStep(acts, a, id);
    if i: nat :| OnlyReport(acts, i, id) && Carries(t.vals[id], acts[i], outcome(id)) { OnlyReportStays(acts, a, i, id); }
  }

  lemma DispatchDocumented(s: QueueState, acts: seq<Action>, outcome: string -> bool, maxConcurrent: int, nowMs: int)
    requires AllDocumented(s.tasks, acts, outcome)
    ensures AllDocumented(AfterDispatch(s, maxConcurrent, nowMs).tasks, acts + [Dispatch(maxConcurrent, nowMs)], outcome)
  {
    hide ToDispatch;
    var t, t', a := s.tasks, AfterDispatch(s, maxConcurrent, nowMs).tasks, Dispatch(maxConcurrent, nowMs);
    var ids := ToDispatch(t, maxConcurrent);
    forall id | id in t'.vals ensures Documented(t', acts + [a], outcome, id) {
      DispatchTask(s, maxConcurrent, nowMs, id);
      assert Documented(t, acts, outcome, id);
      if id in ids {
        UnreportedStep(acts, a, id);
      } else {
        DispatchKeepsOutcomes(s, maxConcurrent, nowMs);
        StaysDocumented(t, t', acts, a, outcome, id);
      }
    }
  }

  /** A dispatch stamps the tasks that it starts with its time, and touches no other. */
  lemma DispatchTask(s: QueueState, maxConcurrent: int, nowMs: int, id: string)
    requires id in AfterDispatch(s, maxConcurrent, nowMs).tasks.vals
    ensures var ids, t' := ToDispatch(s.tasks, maxConcurrent), AfterDispatch(s, maxConcurrent, nowMs).tasks;
            && id in s.tasks.vals
            && (id in ids ==> IsReady(s.tasks, id))
            && t'.vals[id] == if id in ids then s.tasks.vals[id].(status := TaskStatus.Dispatched, dispatchedAtMs := Some(nowMs))
                              else s.tasks.vals[id]
  {
    hide ToDispatch;
    var t' := AfterDispatch(s, maxConcurrent, nowMs).tasks;
    assert id in t'.keys && t'.keys == s.tasks.keys;
    if id in ToDispatch(s.tasks, maxConcurrent) { ToDispatchReady(s.tasks, maxConcurrent, id); }
  }

  lemma DispatchKeepsOutcomes(s: QueueState, maxConcurrent: int, nowMs: int)
    ensures OutcomesStay(s.tasks, AfterDispatch(s, maxConcurrent, nowMs).tasks)
  {
    forall x | x in s.tasks.vals
      ensures Has(s.tasks, x, Completed) ==> Has(AfterDispatch(s, maxConcurrent, nowMs).tasks, x, Completed)
      ensures Has(s.tasks, x, Failed) ==> Has(AfterDispatch(s, maxConcurrent, nowMs).tasks, x, Failed)
    {
      DispatchStatus(s, maxConcurrent, nowMs, x);
    }
  }

  lemma ReportDocumented(s: QueueState, acts: seq<Action>, outcome: string -> bool, id: string, result: string, nowMs: int)
    requires AllDocumented(s.tasks, acts, outcome) && Has(s.tasks, id, TaskStatus.Dispatched)
    ensures AllDocumented(RecordResult(s, id, result, nowMs, outcome(id)).tasks, acts + [Report(id, result, nowMs)], outcome)
  {
    var t, t', a := s.tasks, RecordResult(s, id, result, nowMs, outcome(id)).tasks, Report(id, result, nowMs);
    forall x | x in t'.vals ensures Documented(t', acts + [a], outcome, x) {
      assert Documented(t, acts, outcome, id);
      if x == id {
        NewReport(acts, a, id);
        assert Carries(t'.vals[id], (acts + [a])[|acts|], outcome(id));
      } else {
        assert Documented(t, acts, outcome, x);
        StaysDocumented(t, t', acts, a, outcome, x);
      }
    }
  }

  lemma NewReport(acts: seq<Action>, a: Action, id: string)
    requires Unreported(acts, id) && ReportsOn(a, id)
    ensures OnlyReport(acts + [a], |acts|, id) && (acts + [a])[|acts|] == a
  {
  }

  /** A pass gives each task that it fails the name of a failed dependency. */
  lemma VisitBlames(t: Tasks, id: string)
    requires id in t.vals && IsBlocked(t, id) && Blank(t.vals[id])
    ensures id in FailVisit(t, id).vals && Blames(FailVisit(t, id), FailVisit(t, id).vals[id])
  {
  }

  lemma VisitDocumented(t: Tasks, acts: seq<Action>, outcome: string -> bool, id: string)
    requires AllDocumented(t, acts, outcome) && id in t.vals
    ensures AllDocumented(FailVisit(t, id), acts, outcome)
  {
    hide FailVisit, OnlyReport, Carries;
    var t' := FailVisit(t, id);
    assert Documented(t, acts, outcome, id);
    if IsBlocked(t, id) {
      VisitBlames(t, id);
      VisitKeepsOutcomes(t, id);
      forall x | x in t'.vals ensures Documented(t', acts, outcome, x) {
        if x != id {
          VisitKeys(t, id, x);
          VisitOther(t, id, x);
          assert Documented(t, acts, outcome, x);
        }
      }
    } else {
      VisitFree(t, id);
    }
  }

  lemma VisitKeys(t: Tasks, id: string, x: string)
    requires id in t.vals && x in FailVisit(t, id).vals
    ensures x in t.vals
  {
    assert x in FailVisit(t, id).keys;
  }

  lemma VisitKeepsOutcomes(t: Tasks, id: string)
    requires id in t.vals
    ensures OutcomesStay(t, FailVisit(t, id))
  {
  }

  lemma {:induction false} PassDocumented(t: Tasks, acts: seq<Action>, outcome: string -> bool, k: nat)
    requires AllDocumented(t, acts, outcome) && k <= |t.keys|
    ensures AllDocumented(FailPass(t, k), acts, outcome)
  {
    hide *;
    NoPass(t);
    if k > 0 {
      PassDocumented(t, acts, outcome, k - 1);
      PassStep(t, k);
      VisitDocumented(FailPass(t, k - 1), acts, outcome, t.keys[k - 1]);
    }
  }

  lemma OneMoreAction(t: Tasks, acts: seq<Action>, a: Action, outcome: string -> bool)
    requires AllDocumented(t, acts, outcome) && !a.Report?
    ensures AllDocumented(t, acts + [a], outcome)
  {
    forall id | id in t.vals ensures Documented(t, acts + [a], outcome, id) {
      assert Documented(t, acts, outcome, id);
      StaysDocumented(t, t, acts, a, outcome, id);
    }
  }

  lemma StepDocumented(s: QueueState, acts: seq<Action>, a: Action, outcome: string -> bool)
    requires AllDocumented(s.tasks, acts, outcome) && Enabled(s, a)
    ensures AllDocumented(Step(s, a, outcome).tasks, acts + [a], outcome)
  {
    hide AllDocumented, AfterDispatch, RecordResult;
    match a
    case Dispatch(maxConcurrent, nowMs) => DispatchDocumented(s, acts, outcome, maxConcurrent, nowMs);
    case Report(id, result, nowMs) => ReportDocumented(s, acts, outcome, id, result, nowMs);
    case FailBlocked =>
      PassDocumented(s.tasks, acts, outcome, |s.tasks.keys|);
      OneMoreAction(FailAll(s.tasks), acts, a, outcome);
  }

  // ----- over a run -----

  lemma {:induction false} RunDocumented(s: QueueState, past: seq<Action>, acts: seq<Action>, outcome: string -> bool)
    requires AllDocumented(s.tasks, past, outcome) && Runs(s, acts, outcome)
    ensures AllDocumented(Exec(s, acts, outcome).tasks, past + acts, outcome)
    decreases |acts|
  {
    hide AllDocumented, Step, Enabled;
    if acts == [] {
      assert past + acts == past;
    } else {
      StepDocumented(s, past, acts[0], outcome);
      RunDocumented(Step(s, acts[0], outcome), past + [acts[0]], acts[1..], outcome);
      assert past + [acts[0]] + acts[1..] == past + acts;
    }
  }

  lemma {:induction false} StartBlank(specs: seq<TaskSpec>)
    ensures forall id :: id in TasksOfSpecs(specs).vals ==>
              TasksOfSpecs(specs).vals[id].status == Queued && Blank(TasksOfSpecs(specs).vals[id])
  {
    if specs != [] { StartBlank(specs[..|specs| - 1]); }
  }

  lemma StartDocumented(specs: seq<TaskSpec>, outcome: string -> bool)
    ensures AllDocumented(Start(specs).tasks, [], outcome)
  {
    StartBlank(specs);
  }

  /** In every run from a fresh queue each task carries exactly what was reported on it. A completed task has the result
      and the time of the one report on it and no error; a task whose report was a failure has that text as its error,
      the time, and no result; a task that failed unreported names as its error a dependency that has failed; and a task
      that is still to run or running carries nothing and has not been reported on. */
  lemma ResultsAreReported(specs: seq<TaskSpec>, acts: seq<Action>, outcome: string -> bool, id: string)
    requires Runs(Start(specs), acts, outcome) && id in Exec(Start(specs), acts, outcome).tasks.vals
    ensures var t := Exec(Start(specs), acts, outcome).tasks; var task := t.vals[id];
            match task.status
            case Queued => Blank(task) && Unreported(acts, id)
            case Dispatched => Blank(task) && Unreported(acts, id)
            case Completed =>
              exists i: nat :: OnlyReport(acts, i, id) && outcome(id) &&
                task.result == Some(acts[i].result) && task.error == None && task.completedAtMs == Some(acts[i].nowMs)
            case Failed =>
              || (exists i: nat :: OnlyReport(acts, i, id) && !outcome(id) &&
                    task.result == None && task.error == Some(Reported(acts[i].result)) && task.completedAtMs == Some(acts[i].nowMs))
              || (Unreported(acts, id) && Blames(t, task))
  {
    hide Exec, Runs, Documented, OnlyReport, Blames, TasksOfSpecs;
    var t := Exec(Start(specs), acts, outcome).tasks;
    StartDocumented(specs, outcome);
    RunDocumented(Start(specs), [], acts, outcome);
    assert [] + acts == acts;
    SpelledOut(t, acts, outcome, id);
  }

  lemma SpelledOut(t: Tasks, acts: seq<Action>, outcome: string -> bool, id: string)
    requires id in t.vals && Documented(t, acts, outcome, id)
    ensures var task := t.vals[id];
            match task.status
            case Queued => Blank(task) && Unreported(acts, id)
            case Dispatched => Blank(task) && Unreported(acts, id)
            case Completed =>
              exists i: nat :: OnlyReport(acts, i, id) && outcome(id) &&
                task.result == Some(acts[i].result) && task.error == None && task.completedAtMs == Some(acts[i].nowMs)
            case Failed =>
              || (exists i: nat :: OnlyReport(acts, i, id) && !outcome(id) &&
                    task.result == None && task.error == Some(Reported(acts[i].result)) && task.completedAtMs == Some(acts[i].nowMs))
              || (Unreported(acts, id) && Blames(t, task))
  {
    if i: nat :| OnlyReport(acts, i, id) && Carries(t.vals[id], acts[i], outcome(id)) {
      assert OnlyReport(acts, i, id);
    }
  }

  // ----- times of dispatch -----

  /** A task's time of dispatch is set by the step that enters it into the dispatch order, and by no other. */
  lemma DispatchTimes(s: QueueState, a: Action, outcome: string -> bool, id: string)
    requires id in s.tasks.vals && Enabled(s, a)
    ensures var s' := Step(s, a, outcome);
            && id in s'.tasks.vals
            && s'.tasks.vals[id].dispatchedAtMs ==
               if a.Dispatch? && id in ToDispatch(s.tasks, a.maxConcurrent) then Some(a.nowMs) else s.tasks.vals[id].dispatchedAtMs
    ensures Step(s, a, outcome).dispatchOrder == if a.Dispatch? then s.dispatchOrder + ToDispatch(s.tasks, a.maxConcurrent) else s.dispatchOrder
  {
    hide ToDispatch, FailPass;
    match a
    case Dispatch(maxConcurrent, nowMs) =>
      DispatchStatus(s, maxConcurrent, nowMs, id);
      DispatchTask(s, maxConcurrent, nowMs, id);
    case Report(x, result, nowMs) =>
    case FailBlocked => PassKeepsTimes(s.tasks, |s.tasks.keys|, id);
  }

  lemma {:induction false} PassKeepsTimes(t: Tasks, k: nat, id: string)
    requires k <= |t.keys| && id in t.vals
    ensures id in FailPass(t, k).vals && FailPass(t, k).vals[id].dispatchedAtMs == t.vals[id].dispatchedAtMs
  {
    hide *;
    NoPass(t);
    if k > 0 {
      PassKeepsTimes(t, k - 1, id);
      PassStep(t, k);
      VisitKeepsTime(FailPass(t, k - 1), t.keys[k - 1], id);
    }
  }

  lemma VisitKeepsTime(t: Tasks, x: string, id: string)
    requires x in t.vals && id in t.vals
    ensures id in FailVisit(t, x).vals && FailVisit(t, x).vals[id].dispatchedAtMs == t.vals[id].dispatchedAtMs
  {
  }

  // ----- reports are not checked -----

  /** The source records a result for any known task, whatever its status: a report on a task that is not running, or a
      second one, is taken like any other, and the completion order then lists a task twice. */
  lemma ReportsAreUnchecked(s: QueueState, id: string, result: string, nowMs: int, success: bool)
    ensures var s' := RecordResult(s, id, result, nowMs, success);
            if id in s.tasks.vals then
              && id in s'.tasks.vals && Carries(s'.tasks.vals[id], Report(id, result, nowMs), success)
              && s'.completionOrder == s.completionOrder + [id] && s'.dispatchOrder == s.dispatchOrder
              && (Distinct(s.completionOrder) ==> (Distinct(s'.completionOrder) <==> id !in s.completionOrder))
              && forall x :: x in s.tasks.vals && x != id ==> x in s'.tasks.vals && s'.tasks.vals[x] == s.tasks.vals[x]
            else s' == s
  {
    if id in s.completionOrder {
      var i :| 0 <= i < |s.completionOrder| && s.completionOrder[i] == id;
      assert (s.completionOrder + [id])[i] == (s.completionOrder + [id])[|s.completionOrder|];
    }
  }
}
