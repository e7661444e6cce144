/** What becomes of priorities in the work queue: an order is worked out from them and has no effect. */
module QueuePriority {
  import opened OrderedMaps
  import opened TaskGraph
  import opened WorkQueue
  import opened WorkQueueRuns

  // ----- the order that is discarded -----

  ghost predicate UniqueTasks(specs: seq<TaskSpec>) {
    forall i, j :: 0 <= i < j < |specs| ==> specs[i].id != specs[j].id
  }

  function IdsOf(specs: seq<TaskSpec>): seq<string> {
    seq(|specs|, i requires 0 <= i < |specs| => specs[i].id)
  }

  /** The ids of the specs with priority `p`, in spec order. */
  function OfPriority(specs: seq<TaskSpec>, p: Priority): seq<string> {
    if specs == [] then []
    else
      var front, last := OfPriority(specs[..|specs| - 1], p), specs[|specs| - 1];
      if PriorityOf(last) == p then front + [last.id] else front
  }

  function Sorted(specs: seq<TaskSpec>): seq<string> {
    OfPriority(specs, High) + OfPriority(specs, Normal) + OfPriority(specs, Low)
  }

  /** The task with this id has priority `p`. */
  predicate Ranks(tasks: Tasks, id: string, p: Priority) {
    id in tasks.vals && PriorityOf(tasks.vals[id].spec) == p
  }

  ghost predicate AllRank(tasks: Tasks, ids: seq<string>, p: Priority) {
    forall i :: 0 <= i < |ids| ==> Ranks(tasks, ids[i], p)
  }

  lemma UniquePrefix(specs: seq<TaskSpec>, n: nat)
    requires UniqueTasks(specs) && n <= |specs|
    ensures UniqueTasks(specs[..n])
  {
  }

  lemma {:induction false} UniqueKeys(specs: seq<TaskSpec>)
    requires UniqueTasks(specs)
    ensures FirstIds(specs) == IdsOf(specs) && TasksOfSpecs(specs).keys == IdsOf(specs)
  {
    hide TasksOfSpecs;
    KeysAreFirstIds(specs);
    if specs != [] {
      var n := |specs| - 1;
      UniquePrefix(specs, n);
      UniqueKeys(specs[..n]);
      FirstIdsAre(specs[..n], specs[n].id);
      assert !MentionsId(specs[..n], specs[n].id);
      assert IdsOf(specs) == IdsOf(specs[..n]) + [specs[n].id];
    }
  }

  lemma NewId(specs: seq<TaskSpec>, id: string)
    requires !MentionsId(specs, id)
    ensures id !in TasksOfSpecs(specs).vals
  {
    FirstIdsAre(specs, id);
    KeysAreFirstIds(specs);
    assert id !in TasksOfSpecs(specs).keys;
  }

  lemma StillRank(tasks: Tasks, ids: seq<string>, p: Priority, spec: TaskSpec)
    requires AllRank(tasks, ids, p) && spec.id !in tasks.vals
    ensures AllRank(tasks.Set(spec.id, NewTask(spec)), ids, p)
    ensures Ranks(tasks.Set(spec.id, NewTask(spec)), spec.id, PriorityOf(spec))
  {
  }

  lemma {:induction false} OfPriorityRanks(specs: seq<TaskSpec>, p: Priority)
    requires UniqueTasks(specs)
    ensures AllRank(TasksOfSpecs(specs), OfPriority(specs, p), p)
  {
    if specs != [] {
      var n := |specs| - 1;
      var front, last := specs[..n], specs[n];
      UniquePrefix(specs, n);
      OfPriorityRanks(front, p);
      NewId(front, last.id);
      StillRank(TasksOfSpecs(front), OfPriority(front, p), p, last);
    }
  }

  lemma {:induction false} PlaceSkips(skipped: seq<string>, rest: seq<string>, tasks: Tasks, p: Priority)
    requires forall i :: 0 <= i < |skipped| ==> skipped[i] in tasks.vals && !StopsBefore(p, PriorityOf(tasks.vals[skipped[i]].spec))
    ensures PlaceFor(skipped + rest, tasks, p) == |skipped| + PlaceFor(rest, tasks, p)
  {
    if skipped == [] {
      assert skipped + rest == rest;
    } else {
      assert (skipped + rest)[1..] == skipped[1..] + rest && (skipped + rest)[0] == skipped[0];
      PlaceSkips(skipped[1..], rest, tasks, p);
    }
  }

  lemma PlaceStops(rest: seq<string>, tasks: Tasks, p: Priority)
    requires rest == [] || (rest[0] in tasks.vals && StopsBefore(p, PriorityOf(tasks.vals[rest[0]].spec)))
    ensures PlaceFor(rest, tasks, p) == 0
  {
  }

  /** A new task goes behind the tasks of its own priority. */
  lemma PlaceAmong(tasks: Tasks, highs: seq<string>, normals: seq<string>, lows: seq<string>, p: Priority)
    requires AllRank(tasks, highs, High) && AllRank(tasks, normals, Normal) && AllRank(tasks, lows, Low)
    ensures PlaceFor(highs + normals + lows, tasks, p) ==
            match p case High => |highs| case Normal => |highs + normals| case Low => |highs + normals + lows|
  {
    match p
    case High =>
      assert highs + normals + lows == highs + (normals + lows);
      PlaceSkips(highs, normals + lows, tasks, p);
      assert normals == [] ==> normals + lows == lows;
      PlaceStops(normals + lows, tasks, p);
    case Normal =>
      PlaceSkips(highs + normals, lows, tasks, p);
      PlaceStops(lows, tasks, p);
    case Low =>
      PlaceSkips(highs + normals + lows, [], tasks, p);
      assert highs + normals + lows + [] == highs + normals + lows;
  }

  lemma InsertedAmong(highs: seq<string>, normals: seq<string>, lows: seq<string>, id: string)
    ensures InsertedAt(highs + normals + lows, |highs|, id) == highs + [id] + normals + lows
    ensures InsertedAt(highs + normals + lows, |highs + normals|, id) == highs + (normals + [id]) + lows
    ensures InsertedAt(highs + normals + lows, |highs + normals + lows|, id) == highs + normals + (lows + [id])
  {
    var order := highs + normals + lows;
    assert order[..|highs|] == highs && order[|highs|..] == normals + lows;
    assert order[..|highs + normals|] == highs + normals && order[|highs + normals|..] == lows;
    assert order[..|order|] == order && order[|order|..] == [];
  }

  /** With unique ids the discarded order has all high tasks first, then the normal and then the low ones, each
      in spec order. */
  lemma {:induction false} PriorityOrderIsSorted(specs: seq<TaskSpec>)
    requires UniqueTasks(specs)
    ensures PriorityOrder(specs) == Sorted(specs)
  {
    if specs != [] {
      var n := |specs| - 1;
      var front, last := specs[..n], specs[n];
      UniquePrefix(specs, n);
      PriorityOrderIsSorted(front);
      OfPriorityRanks(front, High);
      OfPriorityRanks(front, Normal);
      OfPriorityRanks(front, Low);
      var highs, normals, lows := OfPriority(front, High), OfPriority(front, Normal), OfPriority(front, Low);
      PlaceAmong(TasksOfSpecs(front), highs, normals, lows, PriorityOf(last));
      InsertedAmong(highs, normals, lows, last.id);
    }
  }

  lemma InsertedBag(order: seq<string>, i: nat, id: string)
    requires i <= |order|
    ensures multiset(InsertedAt(order, i, id)) == multiset(order) + multiset{id}
  {
    assert order == order[..i] + order[i..];
  }

  lemma IdsStep(specs: seq<TaskSpec>)
    requires specs != []
    ensures IdsOf(specs) == IdsOf(specs[..|specs| - 1]) + [specs[|specs| - 1].id]
    ensures multiset(IdsOf(specs)) == multiset(IdsOf(specs[..|specs| - 1])) + multiset{specs[|specs| - 1].id}
  {
    var ids, id := IdsOf(specs[..|specs| - 1]), specs[|specs| - 1].id;
    assert IdsOf(specs) == ids + [id];
    assert multiset(ids + [id]) == multiset(ids) + multiset([id]);
  }

  /** Repeated ids or not, the discarded order lists the specs' ids. */
  lemma {:induction false} PriorityOrderIsPermutation(specs: seq<TaskSpec>)
    ensures multiset(PriorityOrder(specs)) == multiset(IdsOf(specs))
  {
    hide PlaceFor, InsertedAt, IdsOf, TasksOfSpecs, PriorityOf;
    if specs == [] {
      assert PriorityOrder(specs) == [] == IdsOf(specs) by { NoIds(specs); }
    } else {
      var front, last := specs[..|specs| - 1], specs[|specs| - 1];
      PriorityOrderIsPermutation(front);
      IdsStep(specs);
      InsertedBag(PriorityOrder(front), PlaceFor(PriorityOrder(front), TasksOfSpecs(front), PriorityOf(last)), last.id);
    }
  }

  lemma NoIds(specs: seq<TaskSpec>)
    requires specs == []
    ensures IdsOf(specs) == []
  {
  }

  // ----- when discarding it makes no difference -----

  function Rank(p: Priority): nat {
    match p
    case High => 0
    case Normal => 1
    case Low => 2
  }

  /** No spec is followed by one of a higher priority. */
  ghost predicate ListedByPriority(specs: seq<TaskSpec>) {
    forall i, j :: 0 <= i < j < |specs| ==> Rank(PriorityOf(specs[i])) <= Rank(PriorityOf(specs[j]))
  }

  lemma {:induction false} NoneOfPriority(specs: seq<TaskSpec>, p: Priority)
    requires forall i :: 0 <= i < |specs| ==> PriorityOf(specs[i]) != p
    ensures OfPriority(specs, p) == []
  {
    if specs != [] { NoneOfPriority(specs[..|specs| - 1], p); }
  }

  /** A last spec with nothing of a lower priority before it comes last. */
  lemma SortedStep(specs: seq<TaskSpec>)
    requires specs != []
    requires var front, p := specs[..|specs| - 1], PriorityOf(specs[|specs| - 1]);
             (p != Low ==> OfPriority(front, Low) == []) && (p == High ==> OfPriority(front, Normal) == [])
    ensures Sorted(specs) == Sorted(specs[..|specs| - 1]) + [specs[|specs| - 1].id]
  {
  }

  lemma ListedPrefix(specs: seq<TaskSpec>, n: nat)
    requires ListedByPriority(specs) && n <= |specs|
    ensures ListedByPriority(specs[..n])
  {
  }

  lemma {:induction false} ListedIsSorted(specs: seq<TaskSpec>)
    requires ListedByPriority(specs)
    ensures Sorted(specs) == IdsOf(specs)
  {
    if specs != [] {
      var n := |specs| - 1;
      var front, last := specs[..n], specs[n];
      ListedPrefix(specs, n);
      ListedIsSorted(front);
      assert forall i :: 0 <= i < n ==> Rank(PriorityOf(front[i])) <= Rank(PriorityOf(last));
      if PriorityOf(last) != Low { NoneOfPriority(front, Low); }
      if PriorityOf(last) == High { NoneOfPriority(front, Normal); }
      SortedStep(specs);
      assert IdsOf(specs) == IdsOf(front) + [last.id];
    }
  }

  /** Position `k` of the sorted ids holds a task of the block it lies in. */
  lemma SortedRanks(specs: seq<TaskSpec>, k: nat)
    requires UniqueTasks(specs) && k < |Sorted(specs)|
    ensures Ranks(TasksOfSpecs(specs), Sorted(specs)[k],
                  if k < |OfPriority(specs, High)| then High
                  else if k < |OfPriority(specs, High) + OfPriority(specs, Normal)| then Normal else Low)
  {
    OfPriorityRanks(specs, High);
    OfPriorityRanks(specs, Normal);
    OfPriorityRanks(specs, Low);
  }

  lemma UniqueHolds(specs: seq<TaskSpec>, i: nat)
    requires UniqueTasks(specs) && i < |specs|
    ensures specs[i].id in TasksOfSpecs(specs).vals && TasksOfSpecs(specs).vals[specs[i].id] == NewTask(specs[i])
  {
    LastSpecWins(specs, i);
  }

  lemma {:induction false} RepeatsShorten(specs: seq<TaskSpec>)
    ensures |FirstIds(specs)| <= |specs| && (|FirstIds(specs)| == |specs| ==> UniqueTasks(specs))
  {
    if specs != [] {
      var n := |specs| - 1;
      RepeatsShorten(specs[..n]);
      FirstIdsAre(specs[..n], specs[n].id);
      if |FirstIds(specs)| == |specs| {
        forall i, j | 0 <= i < j < |specs| ensures specs[i].id != specs[j].id {
          assert specs[..n][i] == specs[i];
          if j < n { assert specs[..n][j] == specs[j]; }
        }
      }
    }
  }

  lemma ListedIffSorted(specs: seq<TaskSpec>)
    requires UniqueTasks(specs)
    ensures Sorted(specs) == IdsOf(specs) <==> ListedByPriority(specs)
  {
    hide OfPriority, TasksOfSpecs;
    if ListedByPriority(specs) { ListedIsSorted(specs); }
    if Sorted(specs) == IdsOf(specs) {
      forall i, j | 0 <= i < j < |specs| ensures Rank(PriorityOf(specs[i])) <= Rank(PriorityOf(specs[j])) {
        SortedRanks(specs, i);
        SortedRanks(specs, j);
        UniqueHolds(specs, i);
        UniqueHolds(specs, j);
        assert Sorted(specs)[i] == specs[i].id && Sorted(specs)[j] == specs[j].id;
      }
    }
  }

  /** The order worked out from the priorities is the order of the queue exactly when ids are unique and the specs
      were listed by priority in the first place. */
  lemma SpecOrderIffListed(specs: seq<TaskSpec>)
    ensures PriorityOrder(specs) == TasksOfSpecs(specs).keys <==> UniqueTasks(specs) && ListedByPriority(specs)
  {
    if UniqueTasks(specs) {
      PriorityOrderIsSorted(specs);
      UniqueKeys(specs);
      ListedIffSorted(specs);
    } else {
      RepeatsShorten(specs);
      KeysAreFirstIds(specs);
      PriorityOrderIsPermutation(specs);
      assert |PriorityOrder(specs)| == |multiset(PriorityOrder(specs))| == |multiset(IdsOf(specs))| == |specs|;
    }
  }

  // ----- runs ignore priorities -----

  function BareSpec(spec: TaskSpec): TaskSpec {
    spec.(priority := None)
  }

  function BareTask(task: TaskState): TaskState {
    task.(spec := BareSpec(task.spec))
  }

  /** The same tasks without their priorities. */
  function BareTasks(t: Tasks): (r: Tasks)
    ensures r.keys == t.keys
  {
    OMap(t.keys, map id | id in t.vals :: BareTask(t.vals[id]))
  }

  function Bare(s: QueueState): QueueState {
    s.(tasks := BareTasks(s.tasks))
  }

  function BareSpecs(specs: seq<TaskSpec>): seq<TaskSpec> {
    seq(|specs|, i requires 0 <= i < |specs| => BareSpec(specs[i]))
  }

  lemma BareSet(t: Tasks, id: string, task: TaskState)
    ensures BareTasks(t.Set(id, task)) == BareTasks(t).Set(id, BareTask(task))
  {
    var a, b := BareTasks(t.Set(id, task)), BareTasks(t).Set(id, BareTask(task));
    assert a.keys == b.keys;
    forall x ensures x in a.vals <==> x in b.vals { }
    forall x | x in a.vals ensures a.vals[x] == b.vals[x] { }
    assert a.vals == b.vals;
  }

  lemma {:induction false} BareStart(specs: seq<TaskSpec>)
    ensures TasksOfSpecs(BareSpecs(specs)) == BareTasks(TasksOfSpecs(specs))
  {
    if specs != [] {
      var n := |specs| - 1;
      BareStart(specs[..n]);
      assert BareSpecs(specs)[..n] == BareSpecs(specs[..n]);
      BareSet(TasksOfSpecs(specs[..n]), specs[n].id, NewTask(specs[n]));
    }
  }

  lemma BareTests(t: Tasks, deps: seq<string>)
    ensures forall id, status :: Has(BareTasks(t), id, status) == Has(t, id, status)
    ensures AllCompleted(BareTasks(t), deps) == AllCompleted(t, deps) && SomeFailed(BareTasks(t), deps) == SomeFailed(t, deps)
  {
    assert forall id, status :: Has(BareTasks(t), id, status) == Has(t, id, status);
  }

  lemma {:induction false} BareFirstFailed(t: Tasks, deps: seq<string>)
    requires SomeFailed(t, deps)
    ensures SomeFailed(BareTasks(t), deps) && FirstFailed(BareTasks(t), deps) == FirstFailed(t, deps)
  {
    BareTests(t, deps);
    if !Has(t, deps[0], Failed) {
      assert forall d :: d in deps <==> d == deps[0] || d in deps[1..];
      BareFirstFailed(t, deps[1..]);
    }
  }

  lemma {:induction false} BareReady(t: Tasks, k: nat)
    requires k <= |t.keys|
    ensures ReadyIds(BareTasks(t), k) == ReadyIds(t, k)
    ensures CountOf(BareTasks(t), k, TaskStatus.Dispatched) == CountOf(t, k, TaskStatus.Dispatched)
  {
    if k > 0 {
      BareReady(t, k - 1);
      BareTests(t, DependsOn(t.vals[t.keys[k - 1]].spec));
    }
  }

  lemma {:induction false} BareMark(t: Tasks, ids: seq<string>, nowMs: int)
    requires forall id :: id in ids ==> id in t.vals
    ensures MarkDispatched(BareTasks(t), ids, nowMs) == BareTasks(MarkDispatched(t, ids, nowMs))
  {
    if ids != [] {
      var n := |ids| - 1;
      BareMark(t, ids[..n], nowMs);
      var before := MarkDispatched(t, ids[..n], nowMs);
      assert ids[n] in before.vals;
      BareSet(before, ids[n], before.vals[ids[n]].(status := TaskStatus.Dispatched, dispatchedAtMs := Some(nowMs)));
    }
  }

  lemma BareDispatch(s: QueueState, maxConcurrent: int, nowMs: int)
    ensures AfterDispatch(Bare(s), maxConcurrent, nowMs) == Bare(AfterDispatch(s, maxConcurrent, nowMs))
  {
    hide BareTasks, MarkDispatched, ReadyIds, CountOf, IsReady;
    BareReady(s.tasks, |s.tasks.keys|);
    var ids := ToDispatch(s.tasks, maxConcurrent);
    assert ToDispatch(BareTasks(s.tasks), maxConcurrent) == ids;
    forall id | id in ids ensures id in s.tasks.vals { ToDispatchReady(s.tasks, maxConcurrent, id); }
    BareMark(s.tasks, ids, nowMs);
  }

  lemma BareReport(s: QueueState, id: string, result: string, nowMs: int, success: bool)
    ensures RecordResult(Bare(s), id, result, nowMs, success) == Bare(RecordResult(s, id, result, nowMs, success))
  {
    if id in s.tasks.vals { BareSet(s.tasks, id, RecordResult(s, id, result, nowMs, success).tasks.vals[id]); }
  }

  lemma BareVisit(t: Tasks, id: string)
    requires id in t.vals
    ensures FailVisit(BareTasks(t), id) == BareTasks(FailVisit(t, id))
  {
    var deps := DependsOn(t.vals[id].spec);
    BareTests(t, deps);
    if t.vals[id].status == Queued && SomeFailed(t, deps) {
      BareFirstFailed(t, deps);
      BareSet(t, id, t.vals[id].(status := Failed, error := Some(DependencyFailed(FirstFailed(t, deps)))));
    }
  }

  lemma {:induction false} BarePass(t: Tasks, k: nat)
    requires k <= |t.keys|
    ensures FailPass(BareTasks(t), k) == BareTasks(FailPass(t, k))
  {
    hide *;
    NoPass(t);
    NoPass(BareTasks(t));
    if k > 0 {
      BarePass(t, k - 1);
      PassStep(t, k);
      PassStep(BareTasks(t), k);
      BareVisit(FailPass(t, k - 1), t.keys[k - 1]);
    }
  }

  lemma BareStep(s: QueueState, a: Action, outcome: string -> bool)
    ensures Step(Bare(s), a, outcome) == Bare(Step(s, a, outcome))
    ensures Enabled(Bare(s), a) <==> Enabled(s, a)
  {
    BareTests(s.tasks, []);
    match a
    case Dispatch(maxConcurrent, nowMs) => BareDispatch(s, maxConcurrent, nowMs);
    case Report(id, result, nowMs) => BareReport(s, id, result, nowMs, outcome(id));
    case FailBlocked => BarePass(s.tasks, |s.tasks.keys|);
  }

  lemma {:induction false} BareRun(s: QueueState, acts: seq<Action>, outcome: string -> bool)
    ensures Exec(Bare(s), acts, outcome) == Bare(Exec(s, acts, outcome))
    ensures Runs(Bare(s), acts, outcome) <==> Runs(s, acts, outcome)
    decreases |acts|
  {
    if acts != [] {
      BareStep(s, acts[0], outcome);
      BareRun(Step(s, acts[0], outcome), acts[1..], outcome);
    }
  }

  /** Two batches that differ only in priorities have the same runs: the same tasks are dispatched in the same
      order, and every task ends the same way. */
  lemma RunsIgnorePriority(specs: seq<TaskSpec>, other: seq<TaskSpec>, acts: seq<Action>, outcome: string -> bool)
    requires BareSpecs(specs) == BareSpecs(other)
    ensures Runs(Start(specs), acts, outcome) <==> Runs(Start(other), acts, outcome)
    ensures var s, s' := Exec(Start(specs), acts, outcome), Exec(Start(other), acts, outcome);
            && s.dispatchOrder == s'.dispatchOrder && s.completionOrder == s'.completionOrder
            && s.tasks.keys == s'.tasks.keys && Bare(s) == Bare(s')
  {
    BareStart(specs);
    BareStart(other);
    BareRun(Start(specs), acts, outcome);
    BareRun(Start(other), acts, outcome);
  }
}
