/** The fair pool as the object its callers use. Every method is its step of the state machine. */
module FairPoolObject {
  import opened OrderedMaps
  import opened FairScheduler
  import opened FairPool
  import opened FairWaiting
  import FairAccounts

  datatype Stats = Stats(
    activeThreads: int, queuedTasks: nat, completedTasks: nat, failedTasks: nat, averageDurationMs: real, poolSize: nat)

  lemma {:induction false} CountsAll(r: seq<Settlement>)
    requires forall x :: x in r ==> !x.outcome.Discarded?
    ensures Count(r, true) + Count(r, false) == |r|
  {
    if r != [] { CountsAll(r[..|r| - 1]); }
  }

  lemma {:induction false} DistinctSize<T>(s: seq<T>)
    requires Distinct(s)
    ensures |set x | x in s| == |s|
  {
    if s != [] {
      DistinctSize(s[1..]);
      assert (set x | x in s) == (set x | x in s[1..]) + {s[0]};
    }
  }

  ghost function Below(n: nat): (r: set<int>)
    ensures |r| == n && forall x :: x in r <==> 0 <= x < n
  {
    if n == 0 then {} else Below(n - 1) + {n - 1}
  }

  function TasksIn(r: seq<Settlement>): seq<nat> {
    seq(|r|, i requires 0 <= i < |r| => r[i].task)
  }

  lemma SettledTask(s: State, x: nat)
    ensures x in TasksIn(s.settled) <==> WasSettled(s, x)
  {
    var t := TasksIn(s.settled);
    if WasSettled(s, x) {
      var r :| r in s.settled && r.task == x;
      var i :| 0 <= i < |s.settled| && s.settled[i] == r;
      assert t[i] == x;
    }
  }

  lemma SettledCount(s: State)
    requires Inv(s) && !s.destroyed
    ensures Distinct(TasksIn(s.settled)) && |TasksIn(s.settled)| == s.completed + s.failed
  {
    CountsAll(s.settled);
  }

  lemma PlaceOf(s: State, x: int)
    requires Inv(s) && !s.destroyed
    ensures (x in Queued(s.queues, |s.queues.keys|) || x in Flying(s) || (x >= 0 && WasSettled(s, x))) <==> 0 <= x < |s.accepted|
    ensures x in Queued(s.queues, |s.queues.keys|) ==> x !in Flying(s) && !WasSettled(s, x)
  {
    var k := |s.queues.keys|;
    if x >= 0 { QueuedMembers(s, k, x); }
    if x in Flying(s) {
      var d :| d in s.dispatched && d.task == x;
      DispatchedWasAccepted(s, d);
    }
    if x in Queued(s.queues, k) {
      var q := QueueOf(s, s.accepted[x]);
      var i :| 0 <= i < |q| && q[i] == x;
      QueuedIsFresh(s, s.accepted[x], i);
    }
    if 0 <= x < |s.accepted| {
      AcceptedIsSomewhere(s, x);
      if x in QueueOf(s, s.accepted[x]) {
        var j :| 0 <= j < k && s.queues.keys[j] == s.accepted[x];
      }
    }
  }

  lemma SizeBelow(s: set<nat>, n: nat)
    requires forall x :: x in s <==> 0 <= x < n
    ensures |s| == n
  {
    assert s == Below(n);
  }

  lemma ThreeSets(a: set<nat>, b: set<nat>, c: set<nat>, n: nat)
    requires a !! b && a !! c && b !! c && forall x :: (x in a || x in b || x in c) <==> 0 <= x < n
    ensures |a| + |b| + |c| == n
  {
    var ab, all := a + b, a + b + c;
    assert |ab| == |a| + |b|;
    SizeBelow(all, n);
  }

  /** Two lists without repetition and a set that share nothing and together hold the numbers below `n`. */
  lemma Parts(q: seq<nat>, f: set<nat>, t: seq<nat>, n: nat)
    requires Distinct(q) && Distinct(t)
    requires forall x :: (x in q || x in f || x in t) <==> 0 <= x < n
    requires forall x :: x in q ==> x !in f && x !in t
    requires forall x :: x in f ==> x !in t
    ensures |q| + |f| + |t| == n
  {
    DistinctSize(q);
    DistinctSize(t);
    ThreeSets((set x | x in q), f, (set x | x in t), n);
  }

  lemma OnePlace(s: State, x: int)
    requires Inv(s) && !s.destroyed
    ensures var q, t := Queued(s.queues, |s.queues.keys|), TasksIn(s.settled);
            && ((x in q || x in Flying(s) || x in t) <==> 0 <= x < |s.accepted|)
            && (x in q ==> x !in Flying(s) && x !in t)
            && (x in Flying(s) ==> x !in t)
  {
    hide Inv, Queued, TasksIn;
    PlaceOf(s, x);
    if x >= 0 { SettledTask(s, x); }
  }

  /** Until the pool is destroyed, what it reports adds up: tasks queued, in flight, completed and failed
      are all the tasks it accepted. */
  lemma StatsAddUp(s: State)
    requires Inv(s) && !s.destroyed
    ensures |Queued(s.queues, |s.queues.keys|)| + s.inFlight + s.completed + s.failed == |s.accepted|
  {
    hide Fifo, Settlements, NoEmptyQueue, Counters, Queued, Flying, TasksIn;
    var q, t := Queued(s.queues, |s.queues.keys|), TasksIn(s.settled);
    QueuedDistinct(s, |s.queues.keys|);
    SettledCount(s);
    forall x
      ensures (x in q || x in Flying(s) || x in t) <==> 0 <= x < |s.accepted|
      ensures x in q ==> x !in Flying(s) && x !in t
      ensures x in Flying(s) ==> x !in t
    {
      OnePlace(s, x);
    }
    Parts(q, Flying(s), t, |s.accepted|);
  }

  lemma PumpUnfolds(s: State)
    ensures Pump(s) == if CanDispatch(s) then Pump(DispatchOne(s)) else s
  {
  }

  class Pool {
    const maxConcurrent: int
    const backpressureThreshold: int
    var queues: Queues
    var inFlight: int
    var cursor: Option<string>
    var destroyed: bool
    var completedTasks: nat
    var failedTasks: nat
    ghost var accepted: seq<string>
    ghost var dispatched: seq<Dispatch>
    ghost var settled: seq<Settlement>

    ghost function Abs(): State
      reads this
    {
      State(maxConcurrent, queues, inFlight, cursor, destroyed, completedTasks, failedTasks, accepted, dispatched, settled)
    }

    ghost predicate Valid()
      reads this
    {
      Inv(Abs())
    }

    constructor (maxConcurrent: Option<int>, backpressureThreshold: Option<int>)
      ensures Valid()
      ensures Abs() == Fresh(if maxConcurrent.Some? then maxConcurrent.value else 4)
      ensures this.backpressureThreshold == if backpressureThreshold.Some? then backpressureThreshold.value else 8
    {
      this.maxConcurrent := if maxConcurrent.Some? then maxConcurrent.value else 4;
      this.backpressureThreshold := if backpressureThreshold.Some? then backpressureThreshold.value else 8;
      queues := OMap([], map[]);
      inFlight, cursor, destroyed := 0, None, false;
      completedTasks, failedTasks := 0, 0;
      accepted, dispatched, settled := [], [], [];
      new;
      FreshInv(this.maxConcurrent);
    }

    /** `task` stands for the promise the call returns; false means that it was rejected at once. */
    method ExecuteForTopic(topic: string, task: nat) returns (queued: bool)
      requires Valid() && task == |accepted|
      modifies this
      ensures Valid() && Abs() == Step(old(Abs()), Submit(topic))
      ensures queued == !old(destroyed)
    {
      ghost var before := Abs();
      StepKeepsInv(before, Submit(topic));
      if destroyed {
        return false;
      }
      var q := if topic in queues.vals then queues.vals[topic] else [];
      queues := queues.Set(topic, q + [task]);
      accepted := accepted + [topic];
      assert Abs() == Enqueue(before, topic);
      PumpQueues();
      queued := true;
    }

    /** Hands queued tasks to the inner pool while the gate is open. */
    method PumpQueues()
      modifies this
      ensures Abs() == Pump(old(Abs()))
    {
      ghost var target := Pump(Abs());
      while inFlight < maxConcurrent && !destroyed
        invariant Pump(Abs()) == target
        decreases maxConcurrent - inFlight
      {
        ghost var s := Abs();
        PumpUnfolds(s);
        var nonEmpty := NonEmptyTopics(queues, |queues.keys|);
        NonEmptyTopicsFacts(queues, |queues.keys|);
        var next := PickNextTopic(nonEmpty, cursor);
        if next.None? || next.value == "" {
          return;
        }
        HandOver(next.value);
      }
      PumpUnfolds(Abs());
    }

    /** Takes the head of the topic's queue into flight; a queue that empties leaves the map. */
    method HandOver(topic: string)
      requires CanDispatch(Abs()) && NextTopic(Abs()) == Some(topic)
      modifies this
      ensures Abs() == DispatchOne(old(Abs()))
    {
      cursor := Some(topic);
      var q := queues.vals[topic];
      var task := q[0];
      q := q[1..];
      if |q| == 0 {
        queues := queues.Delete(topic);
      } else {
        queues := queues.Set(topic, q);
      }
      inFlight := inFlight + 1;
      dispatched := dispatched + [Dispatch(topic, task)];
    }

    /** The inner pool's promise for a dispatched task resolves or rejects. */
    method OnInnerSettled(ghost task: nat, outcome: Outcome)
      requires Valid() && task in Flying(Abs()) && !outcome.Discarded?
      modifies this
      ensures Valid() && Abs() == Step(old(Abs()), Settle(task, outcome))
      ensures completedTasks == old(completedTasks) + (if outcome == Resolved(true) then 1 else 0)
      ensures failedTasks == old(failedTasks) + (if outcome == Resolved(true) then 0 else 1)
      ensures settled == old(settled) + [Settlement(task, outcome)]
    {
      hide Inv, Pump, Account;
      ghost var before := Abs();
      StepKeepsInv(before, Settle(task, outcome));
      FairAccounts.PumpKeepsAccounts(Account(before, task, outcome));
      CountSettled(task, outcome);
      PumpQueues();
    }

    /** Closes the account of a task: out of flight, counted, and its promise settled. */
    method CountSettled(ghost task: nat, outcome: Outcome)
      modifies this`inFlight, this`completedTasks, this`failedTasks, this`settled
      ensures Abs() == Account(old(Abs()), task, outcome)
      ensures completedTasks == old(completedTasks) + (if outcome == Resolved(true) then 1 else 0)
      ensures failedTasks == old(failedTasks) + (if outcome == Resolved(true) then 0 else 1)
      ensures settled == old(settled) + [Settlement(task, outcome)]
    {
      inFlight := inFlight - 1;
      if outcome == Resolved(true) {
        completedTasks := completedTasks + 1;
      } else {
        failedTasks := failedTasks + 1;
      }
      settled := settled + [Settlement(task, outcome)];
    }

    method DestroyPool()
      requires Valid()
      modifies this
      ensures Valid() && Abs() == Step(old(Abs()), Destroy)
    {
      StepKeepsInv(Abs(), Destroy);
      destroyed := true;
      DiscardQueued();
      queues := OMap([], map[]);
    }

    /** Rejects every queued task, topic by topic. */
    method DiscardQueued()
      modifies this`settled
      ensures settled == old(settled) + Discards(Queued(queues, |queues.keys|))
    {
      for i := 0 to |queues.keys|
        invariant settled == old(settled) + Discards(Queued(queues, i))
      {
        settled := settled + Discards(queues.vals[queues.keys[i]]);
      }
    }

    /** Pressure on a topic is decided by its own queue alone. */
    method Backpressure(topic: string) returns (r: BackpressureResult)
      requires Valid()
      ensures r.queueDepth == |QueueOf(Abs(), topic)| && r.threshold == backpressureThreshold
      ensures r.apply <==> |QueueOf(Abs(), topic)| > backpressureThreshold
    {
      r := EvaluateBackpressure(if topic in queues.vals then |queues.vals[topic]| else 0, backpressureThreshold);
    }

    /** This pool's queues and tasks in flight in place of the inner pool's, and both pools' outcomes added up. What the
        inner pool counts is on top: without it the four numbers would account for the accepted tasks. */
    method ReadStats(inner: Stats) returns (r: Stats)
      requires Valid()
      ensures !destroyed ==>
                r.queuedTasks + r.activeThreads + r.completedTasks + r.failedTasks == |accepted| + inner.completedTasks + inner.failedTasks
      ensures r.activeThreads == |Flying(Abs())| && r.queuedTasks == |Queued(queues, |queues.keys|)|
      ensures r.completedTasks == Count(settled, true) + inner.completedTasks
      ensures r.failedTasks == Count(settled, false) + inner.failedTasks
      ensures r.averageDurationMs == inner.averageDurationMs && r.poolSize == inner.poolSize
    {
      var queued := 0;
      for i := 0 to |queues.keys|
        invariant queued == |Queued(queues, i)|
      {
        queued := queued + |queues.vals[queues.keys[i]]|;
      }
      if !destroyed { StatsAddUp(Abs()); }
      r := inner.(queuedTasks := queued, activeThreads := inFlight,
                  completedTasks := completedTasks + inner.completedTasks, failedTasks := failedTasks + inner.failedTasks);
    }

    /** The test that ends drain's wait. */
    method IsDrained() returns (done: bool)
      requires Valid()
      ensures done <==> queues.keys == [] && inFlight == 0
      ensures done ==> forall id :: 0 <= id < |accepted| ==> WasSettled(Abs(), id)
    {
      done := !(|queues.keys| > 0 || inFlight > 0);
      if done { DrainedMeansSettled(Abs()); }
    }
  }
}
