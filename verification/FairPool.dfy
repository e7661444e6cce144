/** The fair pool: per-topic FIFO queues, a round-robin cursor and an in-flight gate. A task is
    named by its position in the sequence of accepted submissions. */
module FairPool {
  import opened OrderedMaps
  import opened FairScheduler

  type Queues = Ordered<string, seq<nat>>

  datatype Dispatch = Dispatch(topic: string, task: nat)

  /** What happened to a task's promise: resolved with the inner pool's result, rejected because the
      inner pool rejected, or rejected because the pool was destroyed while the task was queued. */
  datatype Outcome = Resolved(ok: bool) | Rejected | Discarded
  datatype Settlement = Settlement(task: nat, outcome: Outcome)

  /** The pool's fields, followed by its history: the topic of every accepted task, the tasks handed
      to the inner pool and the promises settled, each in order. */
  datatype State = State(
    maxConcurrent: int, queues: Queues, inFlight: int, cursor: Option<string>, destroyed: bool,
    completed: nat, failed: nat,
    accepted: seq<string>, dispatched: seq<Dispatch>, settled: seq<Settlement>)

  datatype Event = Submit(topic: string) | Settle(task: nat, outcome: Outcome) | Destroy

  function Fresh(maxConcurrent: int): State {
    State(maxConcurrent, OMap([], map[]), 0, None, false, 0, 0, [], [], [])
  }

  function QueueOf(s: State, topic: string): seq<nat> {
    if topic in s.queues.vals then s.queues.vals[topic] else []
  }

  function NonEmptyTopics(q: Queues, k: nat): seq<string>
    requires k <= |q.keys|
  {
    if k == 0 then []
    else NonEmptyTopics(q, k - 1) + (if q.vals[q.keys[k - 1]] != [] then [q.keys[k - 1]] else [])
  }

  lemma NonEmptyTopicsFacts(q: Queues, k: nat)
    requires k <= |q.keys|
    ensures forall t :: t in NonEmptyTopics(q, k) ==> t in q.vals && q.vals[t] != []
    ensures (forall t :: t in q.vals ==> q.vals[t] != []) ==> NonEmptyTopics(q, k) == q.keys[..k]
  {
    if k > 0 { NonEmptyTopicsFacts(q, k - 1); }
  }

  /** The topic the scheduler would serve now. */
  function NextTopic(s: State): (t: Option<string>)
    ensures t.Some? ==> t.value in s.queues.vals && s.queues.vals[t.value] != []
  {
    NonEmptyTopicsFacts(s.queues, |s.queues.keys|);
    PickNextTopic(NonEmptyTopics(s.queues, |s.queues.keys|), s.cursor)
  }

  /** The pump continues while there is capacity and the scheduler names a topic. The source tests the
      name for truthiness, so the empty name stops the pump like no name at all. */
  predicate CanDispatch(s: State) {
    s.inFlight < s.maxConcurrent && !s.destroyed && NextTopic(s).Some? && NextTopic(s).value != ""
  }

  function DispatchOne(s: State): State
    requires CanDispatch(s)
  {
    var t := NextTopic(s).value;
    var q := s.queues.vals[t];
    s.(cursor := Some(t),
       queues := if |q| == 1 then s.queues.Delete(t) else s.queues.Set(t, q[1..]),
       inFlight := s.inFlight + 1,
       dispatched := s.dispatched + [Dispatch(t, q[0])])
  }

  function Pump(s: State): State
    decreases s.maxConcurrent - s.inFlight
  {
    if CanDispatch(s) then Pump(DispatchOne(s)) else s
  }

  function Enqueue(s: State, topic: string): State {
    s.(queues := s.queues.Set(topic, QueueOf(s, topic) + [|s.accepted|]), accepted := s.accepted + [topic])
  }

  /** Tasks still queued, topic by topic in map order. */
  function Queued(q: Queues, k: nat): seq<nat>
    requires k <= |q.keys|
  {
    if k == 0 then [] else Queued(q, k - 1) + q.vals[q.keys[k - 1]]
  }

  function Discards(tasks: seq<nat>): seq<Settlement> {
    seq(|tasks|, i requires 0 <= i < |tasks| => Settlement(tasks[i], Discarded))
  }

  function Account(s: State, task: nat, outcome: Outcome): State {
    s.(inFlight := s.inFlight - 1,
       completed := if outcome == Resolved(true) then s.completed + 1 else s.completed,
       failed := if outcome == Resolved(true) then s.failed else s.failed + 1,
       settled := s.settled + [Settlement(task, outcome)])
  }

  function Step(s: State, e: Event): State {
    match e
    case Submit(topic) => if s.destroyed then s else Pump(Enqueue(s, topic))
    case Settle(task, outcome) => Pump(Account(s, task, outcome))
    case Destroy =>
      s.(destroyed := true,
         settled := s.settled + Discards(Queued(s.queues, |s.queues.keys|)),
         queues := OMap([], map[]))
  }

  ghost predicate WasDispatched(s: State, task: nat) {
    exists d :: d in s.dispatched && d.task == task
  }

  ghost predicate WasSettled(s: State, task: nat) {
    exists r :: r in s.settled && r.task == task
  }

  ghost function Flying(s: State): set<nat> {
    set d | d in s.dispatched && !WasSettled(s, d.task) :: d.task
  }

  /** The inner pool settles each promise it was handed at most once. */
  ghost predicate Enabled(s: State, e: Event) {
    e.Settle? ==> e.task in Flying(s) && !e.outcome.Discarded?
  }

  ghost predicate Runs(s: State, es: seq<Event>)
    decreases |es|
  {
    es == [] || (Enabled(s, es[0]) && Runs(Step(s, es[0]), es[1..]))
  }

  function Exec(s: State, es: seq<Event>): State
    decreases |es|
  {
    if es == [] then s else Exec(Step(s, es[0]), es[1..])
  }

  // ----- what every step keeps -----

  function TasksOf(d: seq<Dispatch>, topic: string): seq<nat> {
    if d == [] then []
    else if d[|d| - 1].topic == topic then TasksOf(d[..|d| - 1], topic) + [d[|d| - 1].task]
    else TasksOf(d[..|d| - 1], topic)
  }

  /** The accepted tasks of a topic, in submission order. */
  function SubmittedTo(accepted: seq<string>, topic: string): (r: seq<nat>)
    ensures forall i :: 0 <= i < |r| ==> r[i] < |accepted| && accepted[r[i]] == topic
    ensures forall i, j :: 0 <= i < j < |r| ==> r[i] < r[j]
    ensures forall id :: 0 <= id < |accepted| && accepted[id] == topic ==> id in r
  {
    if accepted == [] then []
    else
      var n := |accepted| - 1;
      SubmittedTo(accepted[..n], topic) + (if accepted[n] == topic then [n] else [])
  }

  function Count(r: seq<Settlement>, ok: bool): nat {
    if r == [] then 0
    else
      var o := r[|r| - 1].outcome;
      Count(r[..|r| - 1], ok) + (if !o.Discarded? && (o == Resolved(true)) == ok then 1 else 0)
  }

  ghost predicate SettledOnce(r: seq<Settlement>) {
    forall i, j :: 0 <= i < j < |r| ==> r[i].task != r[j].task
  }

  /** Per topic, dispatched tasks followed by queued tasks are the submitted tasks in order. */
  ghost predicate Fifo(s: State) {
    forall t :: if s.destroyed then TasksOf(s.dispatched, t) <= SubmittedTo(s.accepted, t)
                else TasksOf(s.dispatched, t) + QueueOf(s, t) == SubmittedTo(s.accepted, t)
  }

  ghost predicate NoEmptyQueue(s: State) {
    && (forall t :: t in s.queues.vals ==> s.queues.vals[t] != [])
    && (s.destroyed ==> s.queues.keys == [])
  }

  /** A settlement is a discard exactly when its task never reached the inner pool. */
  ghost predicate Settlements(s: State) {
    && SettledOnce(s.settled)
    && (forall r :: r in s.settled ==> r.task < |s.accepted| && (r.outcome.Discarded? <==> !WasDispatched(s, r.task)))
    && (if s.destroyed then forall id :: 0 <= id < |s.accepted| ==> WasDispatched(s, id) || WasSettled(s, id)
        else forall r :: r in s.settled ==> !r.outcome.Discarded?)
  }

  ghost predicate Gate(s: State) {
    s.inFlight == |Flying(s)| && (s.inFlight <= s.maxConcurrent || s.inFlight == 0)
  }

  ghost predicate Counters(s: State) {
    s.completed == Count(s.settled, true) && s.failed == Count(s.settled, false)
  }

  ghost predicate Inv(s: State) {
    NoEmptyQueue(s) && Fifo(s) && Settlements(s) && Gate(s) && Counters(s)
  }

  lemma TasksOfAppend(d: seq<Dispatch>, e: Dispatch, t: string)
    ensures TasksOf(d + [e], t) == if e.topic == t then TasksOf(d, t) + [e.task] else TasksOf(d, t)
  {
    assert (d + [e])[..|d|] == d;
  }

  lemma {:induction false} TasksOfMembers(d: seq<Dispatch>, t: string, id: nat)
    ensures id in TasksOf(d, t) <==> Dispatch(t, id) in d
  {
    if d != [] { TasksOfMembers(d[..|d| - 1], t, id); }
  }

  lemma SubmittedToAppend(a: seq<string>, x: string, t: string)
    ensures SubmittedTo(a + [x], t) == SubmittedTo(a, t) + (if x == t then [|a|] else [])
  {
    assert (a + [x])[..|a|] == a;
  }

  /** Every dispatched task was accepted for the topic it was dispatched under. */
  lemma DispatchedWasAccepted(s: State, d: Dispatch)
    requires Fifo(s) && d in s.dispatched
    ensures d.task < |s.accepted| && s.accepted[d.task] == d.topic
  {
    TasksOfMembers(s.dispatched, d.topic, d.task);
    assert d.task in SubmittedTo(s.accepted, d.topic);
  }

  /** A queued task has been neither dispatched nor settled. */
  lemma QueuedIsFresh(s: State, t: string, i: nat)
    requires Inv(s) && i < |QueueOf(s, t)|
    ensures !s.destroyed && QueueOf(s, t)[i] < |s.accepted| && s.accepted[QueueOf(s, t)[i]] == t
    ensures !WasDispatched(s, QueueOf(s, t)[i]) && !WasSettled(s, QueueOf(s, t)[i])
  {
    var id := QueueOf(s, t)[i];
    var before := TasksOf(s.dispatched, t);
    assert SubmittedTo(s.accepted, t)[|before| + i] == id;
    forall d | d in s.dispatched ensures d.task != id {
      DispatchedWasAccepted(s, d);
      TasksOfMembers(s.dispatched, d.topic, d.task);
      if d.topic == t {
        var j :| 0 <= j < |before| && before[j] == d.task;
        assert SubmittedTo(s.accepted, t)[j] == d.task;
      }
    }
  }

  lemma EnqueueKeepsInv(s: State, topic: string)
    requires Inv(s) && !s.destroyed
    ensures Inv(Enqueue(s, topic))
  {
    var s' := Enqueue(s, topic);
    forall t ensures TasksOf(s'.dispatched, t) + QueueOf(s', t) == SubmittedTo(s'.accepted, t) {
      SubmittedToAppend(s.accepted, topic, t);
    }
    assert Flying(s') == Flying(s);
  }

  lemma DispatchTakesHead(s: State, x: string)
    requires CanDispatch(s)
    ensures QueueOf(DispatchOne(s), x) == if NextTopic(s) == Some(x) then QueueOf(s, x)[1..] else QueueOf(s, x)
  {
  }

  lemma HeadMoves(front: seq<nat>, q: seq<nat>)
    requires q != []
    ensures front + [q[0]] + q[1..] == front + q
  {
  }

  lemma DispatchKeepsFifo(s: State)
    requires Inv(s) && CanDispatch(s)
    ensures Fifo(DispatchOne(s))
  {
    var s' := DispatchOne(s);
    var t := NextTopic(s).value;
    var q := QueueOf(s, t);
    forall x ensures TasksOf(s'.dispatched, x) + QueueOf(s', x) == SubmittedTo(s.accepted, x) {
      DispatchTakesHead(s, x);
      TasksOfAppend(s.dispatched, Dispatch(t, q[0]), x);
      if x == t { HeadMoves(TasksOf(s.dispatched, t), q); }
    }
  }

  lemma DispatchFlies(s: State, id: nat)
    requires Inv(s) && CanDispatch(s) && id == s.queues.vals[NextTopic(s).value][0]
    ensures forall x :: WasDispatched(DispatchOne(s), x) <==> WasDispatched(s, x) || x == id
    ensures id !in Flying(s) && Flying(DispatchOne(s)) == Flying(s) + {id}
  {
    var s' := DispatchOne(s);
    QueuedIsFresh(s, NextTopic(s).value, 0);
    assert Dispatch(NextTopic(s).value, id) in s'.dispatched;
    assert forall d :: d in s'.dispatched <==> d in s.dispatched || d == Dispatch(NextTopic(s).value, id);
  }

  lemma DispatchKeepsInv(s: State)
    requires Inv(s) && CanDispatch(s)
    ensures Inv(DispatchOne(s))
  {
    var id := s.queues.vals[NextTopic(s).value][0];
    DispatchKeepsFifo(s);
    DispatchFlies(s, id);
    QueuedIsFresh(s, NextTopic(s).value, 0);
    assert Settlements(DispatchOne(s));
  }

  lemma PumpKeepsInv(s: State)
    requires Inv(s)
    ensures Inv(Pump(s))
    decreases s.maxConcurrent - s.inFlight
  {
    if CanDispatch(s) {
      DispatchKeepsInv(s);
      PumpKeepsInv(DispatchOne(s));
    }
  }

  lemma AccountLands(s: State, task: nat, outcome: Outcome)
    requires Inv(s) && task in Flying(s)
    ensures forall x :: WasSettled(Account(s, task, outcome), x) <==> WasSettled(s, x) || x == task
    ensures Flying(Account(s, task, outcome)) == Flying(s) - {task}
  {
    var s' := Account(s, task, outcome);
    assert Settlement(task, outcome) in s'.settled;
    assert forall r :: r in s'.settled <==> r in s.settled || r == Settlement(task, outcome);
  }

  lemma AccountKeepsSettlements(s: State, task: nat, outcome: Outcome)
    requires Inv(s) && task in Flying(s) && !outcome.Discarded?
    ensures Settlements(Account(s, task, outcome))
  {
    AccountLands(s, task, outcome);
    var d :| d in s.dispatched && d.task == task;
    DispatchedWasAccepted(s, d);
    assert forall i :: 0 <= i < |s.settled| ==> s.settled[i] in s.settled;
  }

  lemma AccountKeepsInv(s: State, task: nat, outcome: Outcome)
    requires Inv(s) && task in Flying(s) && !outcome.Discarded?
    ensures Inv(Account(s, task, outcome))
  {
    var s' := Account(s, task, outcome);
    AccountLands(s, task, outcome);
    assert Counters(s') by { assert s'.settled[..|s.settled|] == s.settled; }
    AccountKeepsSettlements(s, task, outcome);
  }

  lemma {:induction false} QueuedMembers(s: State, k: nat, id: nat)
    requires Inv(s) && k <= |s.queues.keys|
    ensures id in Queued(s.queues, k) ==> id < |s.accepted| && id in QueueOf(s, s.accepted[id])
    ensures id in Queued(s.queues, k) <==> exists j :: 0 <= j < k && id in s.queues.vals[s.queues.keys[j]]
  {
    if k > 0 {
      QueuedMembers(s, k - 1, id);
      var t := s.queues.keys[k - 1];
      if id in s.queues.vals[t] {
        var i :| 0 <= i < |QueueOf(s, t)| && QueueOf(s, t)[i] == id;
        QueuedIsFresh(s, t, i);
      }
    }
  }

  lemma QueueDistinct(s: State, t: string)
    requires Inv(s)
    ensures Distinct(QueueOf(s, t))
  {
    hide Settlements, Gate, Counters;
    var before := TasksOf(s.dispatched, t);
    if !s.destroyed {
      assert forall i :: 0 <= i < |QueueOf(s, t)| ==> QueueOf(s, t)[i] == SubmittedTo(s.accepted, t)[|before| + i];
    }
  }

  lemma {:induction false} QueuedDistinct(s: State, k: nat)
    requires Inv(s) && k <= |s.queues.keys|
    ensures Distinct(Queued(s.queues, k))
  {
    if k > 0 {
      QueuedDistinct(s, k - 1);
      var a, t := Queued(s.queues, k - 1), s.queues.keys[k - 1];
      QueueDistinct(s, t);
      forall i, j | 0 <= i < |a| && 0 <= j < |QueueOf(s, t)| ensures a[i] != QueueOf(s, t)[j] {
        QueuedMembers(s, k - 1, a[i]);
        QueuedIsFresh(s, t, j);
        var m :| 0 <= m < k - 1 && a[i] in s.queues.vals[s.queues.keys[m]];
        var i' :| 0 <= i' < |QueueOf(s, s.queues.keys[m])| && QueueOf(s, s.queues.keys[m])[i'] == a[i];
        QueuedIsFresh(s, s.queues.keys[m], i');
      }
    }
  }

  lemma {:induction false} DiscardsDoNotCount(r: seq<Settlement>, tasks: seq<nat>, ok: bool)
    ensures Count(r + Discards(tasks), ok) == Count(r, ok)
  {
    if tasks == [] {
      assert r + Discards(tasks) == r;
    } else {
      var n := |tasks| - 1;
      assert (r + Discards(tasks))[..|r| + n] == r + Discards(tasks[..n]);
      DiscardsDoNotCount(r, tasks[..n], ok);
    }
  }

  /** What destroying settles: the queued tasks, each as a discard, each once. */
  lemma DestroySettles(s: State)
    requires Inv(s)
    ensures forall x :: WasSettled(Step(s, Destroy), x) <==>
                        WasSettled(s, x) || x in Queued(s.queues, |s.queues.keys|)
    ensures s.settled <= Step(s, Destroy).settled
    ensures forall i :: |s.settled| <= i < |Step(s, Destroy).settled| ==> Step(s, Destroy).settled[i].outcome.Discarded?
    ensures Flying(Step(s, Destroy)) == Flying(s)
    ensures SettledOnce(Step(s, Destroy).settled)
  {
    var s' := Step(s, Destroy);
    var q := Queued(s.queues, |s.queues.keys|);
    var k := |s.queues.keys|;
    forall x ensures WasSettled(s', x) <==> WasSettled(s, x) || x in q {
      if WasSettled(s, x) {
        var r :| r in s.settled && r.task == x;
        assert r in s'.settled;
      }
      if x in q { assert Settlement(x, Discarded) in Discards(q) by { var i :| 0 <= i < |q| && q[i] == x; assert Discards(q)[i] == Settlement(x, Discarded); } }
    }
    forall x | x in q ensures !WasDispatched(s, x) && !WasSettled(s, x) {
      QueuedMembers(s, k, x);
      var t := s.accepted[x];
      var i :| 0 <= i < |QueueOf(s, t)| && QueueOf(s, t)[i] == x;
      QueuedIsFresh(s, t, i);
    }
    QueuedDistinct(s, k);
    forall i | 0 <= i < |s.settled| ensures s.settled[i].task !in q {
      assert WasSettled(s, s.settled[i].task);
    }
  }

  lemma DestroyKeepsInv(s: State)
    requires Inv(s)
    ensures Inv(Step(s, Destroy))
  {
    var s' := Step(s, Destroy);
    var k := |s.queues.keys|;
    var q := Queued(s.queues, k);
    DestroySettles(s);
    DiscardsDoNotCount(s.settled, q, true);
    DiscardsDoNotCount(s.settled, q, false);
    assert forall x :: WasDispatched(s', x) <==> WasDispatched(s, x);
    forall r | r in s'.settled ensures r.task < |s.accepted| && (r.outcome.Discarded? <==> !WasDispatched(s, r.task)) {
      if r !in s.settled {
        QueuedMembers(s, k, r.task);
        var t := s.accepted[r.task];
        var i :| 0 <= i < |QueueOf(s, t)| && QueueOf(s, t)[i] == r.task;
        QueuedIsFresh(s, t, i);
      }
    }
    forall id | 0 <= id < |s.accepted| ensures WasDispatched(s', id) || WasSettled(s', id) {
      AcceptedIsSomewhere(s, id);
      if id in QueueOf(s, s.accepted[id]) {
        var j :| 0 <= j < k && s.queues.keys[j] == s.accepted[id];
        QueuedMembers(s, k, id);
      }
    }
  }

  lemma AcceptedIsSomewhere(s: State, id: nat)
    requires Inv(s) && id < |s.accepted|
    ensures id in QueueOf(s, s.accepted[id]) || WasDispatched(s, id) || WasSettled(s, id)
  {
    var t := s.accepted[id];
    if !s.destroyed && id !in QueueOf(s, t) {
      TasksOfMembers(s.dispatched, t, id);
      assert id in SubmittedTo(s.accepted, t);
      assert Dispatch(t, id) in s.dispatched;
    }
  }

  lemma StepKeepsInv(s: State, e: Event)
    requires Inv(s) && Enabled(s, e)
    ensures Inv(Step(s, e))
  {
    match e
    case Submit(topic) =>
      if !s.destroyed {
        EnqueueKeepsInv(s, topic);
        PumpKeepsInv(Enqueue(s, topic));
      }
    case Settle(task, outcome) =>
      AccountKeepsInv(s, task, outcome);
      PumpKeepsInv(Account(s, task, outcome));
    case Destroy => DestroyKeepsInv(s);
  }

  /** The pool's invariant holds after every run. */
  lemma {:induction false} RunKeepsInv(s: State, es: seq<Event>)
    requires Inv(s) && Runs(s, es)
    ensures Inv(Exec(s, es))
    decreases |es|
  {
    if es != [] {
      StepKeepsInv(s, es[0]);
      RunKeepsInv(Step(s, es[0]), es[1..]);
    }
  }

  lemma FreshInv(maxConcurrent: int)
    ensures Inv(Fresh(maxConcurrent))
  {
    assert Flying(Fresh(maxConcurrent)) == {};
  }

  /** Conservation: in every reachable state an accepted task is in exactly one of three places, its
      promise was settled at most once, the gate counts the tasks in flight, and tasks of one topic
      reach the inner pool in submission order. */
  lemma Conservation(maxConcurrent: int, es: seq<Event>, id: nat)
    requires Runs(Fresh(maxConcurrent), es)
    requires id < |Exec(Fresh(maxConcurrent), es).accepted|
    ensures var s := Exec(Fresh(maxConcurrent), es);
            var queued := id in QueueOf(s, s.accepted[id]);
            && (queued || id in Flying(s) || WasSettled(s, id))
            && !(queued && id in Flying(s)) && !(queued && WasSettled(s, id)) && !(id in Flying(s) && WasSettled(s, id))
            && SettledOnce(s.settled)
            && s.inFlight == |Flying(s)| && (s.inFlight <= maxConcurrent || s.inFlight == 0)
            && TasksOf(s.dispatched, s.accepted[id]) <= SubmittedTo(s.accepted, s.accepted[id])
  {
    var s := Exec(Fresh(maxConcurrent), es);
    FreshInv(maxConcurrent);
    RunKeepsInv(Fresh(maxConcurrent), es);
    RunKeepsLimit(Fresh(maxConcurrent), es);
    AcceptedIsSomewhere(s, id);
    var q := QueueOf(s, s.accepted[id]);
    if id in q {
      var i :| 0 <= i < |q| && q[i] == id;
      QueuedIsFresh(s, s.accepted[id], i);
    }
  }

  lemma PumpKeepsLimit(s: State)
    ensures Pump(s).maxConcurrent == s.maxConcurrent && Pump(s).destroyed == s.destroyed
    ensures Pump(s).accepted == s.accepted && Pump(s).settled == s.settled
    decreases s.maxConcurrent - s.inFlight
  {
    if CanDispatch(s) { PumpKeepsLimit(DispatchOne(s)); }
  }

  lemma {:induction false} RunKeepsLimit(s: State, es: seq<Event>)
    ensures Exec(s, es).maxConcurrent == s.maxConcurrent
    decreases |es|
  {
    if es != [] {
      match es[0] {
        case Submit(t) => if !s.destroyed { PumpKeepsLimit(Enqueue(s, t)); }
        case Settle(task, o) => PumpKeepsLimit(Account(s, task, o));
        case Destroy =>
      }
      RunKeepsLimit(Step(s, es[0]), es[1..]);
    }
  }

  /** The exit test of drain: once no queue is left and nothing is in flight, every accepted task has
      been settled. */
  lemma DrainedMeansSettled(s: State)
    requires Inv(s) && s.queues.keys == [] && s.inFlight == 0
    ensures forall id :: 0 <= id < |s.accepted| ==> WasSettled(s, id)
  {
    forall id | 0 <= id < |s.accepted| ensures WasSettled(s, id) {
      AcceptedIsSomewhere(s, id);
      assert Flying(s) == {};
      assert WasDispatched(s, id) && !WasSettled(s, id) ==> id in Flying(s);
    }
  }
}
