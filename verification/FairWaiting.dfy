/** Whole-run guarantees of the fair pool: how long a queued task waits, how often another topic
    overtakes it, and when the pump leaves capacity unused. */
module FairWaiting {
  import opened OrderedMaps
  import opened FairScheduler
  import opened FairPool

  /** Events only name topics of `topics`. */
  ghost predicate Within(es: seq<Event>, topics: set<string>) {
    forall e :: e in es && e.Submit? ==> e.topic in topics
  }

  ghost predicate KeysWithin(s: State, topics: set<string>) {
    forall t :: t in s.queues.keys ==> t in topics
  }

  lemma {:induction false} DistinctFits<T>(s: seq<T>, u: set<T>)
    requires Distinct(s) && forall x :: x in s ==> x in u
    ensures |s| <= |u|
  {
    if s != [] {
      DistinctFits(s[1..], u - {s[0]});
    }
  }

  // ----- unused capacity -----

  ghost predicate Saturated(s: State) {
    s.destroyed || s.inFlight >= s.maxConcurrent || s.queues.keys == []
  }

  lemma PumpExhausts(s: State)
    ensures !CanDispatch(Pump(s))
    decreases s.maxConcurrent - s.inFlight
  {
    if CanDispatch(s) { PumpExhausts(DispatchOne(s)); }
  }

  lemma PumpKeysWithin(s: State, topics: set<string>)
    requires KeysWithin(s, topics)
    ensures KeysWithin(Pump(s), topics)
    decreases s.maxConcurrent - s.inFlight
  {
    if CanDispatch(s) {
      WithoutIndexFacts(s.queues.keys, IndexOf(s.queues.keys, NextTopic(s).value));
      PumpKeysWithin(DispatchOne(s), topics);
    }
  }

  lemma StepKeysWithin(s: State, e: Event, topics: set<string>)
    requires KeysWithin(s, topics) && Within([e], topics)
    ensures KeysWithin(Step(s, e), topics)
  {
    match e
    case Submit(t) =>
      assert e in [e];
      if !s.destroyed { PumpKeysWithin(Enqueue(s, t), topics); }
    case Settle(task, o) => PumpKeysWithin(Account(s, task, o), topics);
    case Destroy =>
  }

  /** In a reachable state the scheduler chooses among all queued topics. */
  lemma NextTopicIsPick(s: State)
    requires Inv(s)
    ensures NextTopic(s) == PickNextTopic(s.queues.keys, s.cursor)
  {
    NonEmptyTopicsFacts(s.queues, |s.queues.keys|);
    assert s.queues.keys[..|s.queues.keys|] == s.queues.keys;
  }

  lemma StepSaturates(s: State, e: Event, topics: set<string>)
    requires Inv(s) && Enabled(s, e) && KeysWithin(s, topics) && Within([e], topics) && "" !in topics
    ensures Saturated(Step(s, e))
  {
    StepKeepsInv(s, e);
    StepKeysWithin(s, e, topics);
    NextTopicIsPick(Step(s, e));
    match e
    case Submit(t) => if !s.destroyed { PumpExhausts(Enqueue(s, t)); }
    case Settle(task, o) => PumpExhausts(Account(s, task, o));
    case Destroy =>
  }

  lemma {:induction false} RunSaturates(s: State, es: seq<Event>, topics: set<string>)
    requires Inv(s) && Saturated(s) && Runs(s, es) && KeysWithin(s, topics) && Within(es, topics) && "" !in topics
    ensures Saturated(Exec(s, es))
    decreases |es|
  {
    if es != [] {
      StepSaturates(s, es[0], topics);
      StepKeepsInv(s, es[0]);
      StepKeysWithin(s, es[0], topics);
      RunSaturates(Step(s, es[0]), es[1..], topics);
    }
  }

  /** One task for the topic with the empty name is enough to leave the pump idle. */
  lemma EmptyNameLeavesIdle(s: State, es: seq<Event>)
    requires s == Fresh(s.maxConcurrent) && s.maxConcurrent >= 1 && es == [Submit("")]
    ensures Runs(s, es) && !Saturated(Exec(s, es))
  {
    hide Inv;
    var stuck := Enqueue(s, "");
    FreshInv(s.maxConcurrent);
    EnqueueKeepsInv(s, "");
    NextTopicIsPick(stuck);
    assert stuck.queues.keys == [""];
    assert Runs(Step(s, es[0]), es[1..]) && Exec(Step(s, es[0]), es[1..]) == stuck;
  }

  /** The pump leaves no capacity unused, in any run over the given topics, exactly when the empty name
      is not one of them. */
  lemma NeverIdleIffNamed(maxConcurrent: int, topics: set<string>)
    requires maxConcurrent >= 1
    ensures (forall es :: Runs(Fresh(maxConcurrent), es) && Within(es, topics) ==> Saturated(Exec(Fresh(maxConcurrent), es)))
       <==> "" !in topics
  {
    var s := Fresh(maxConcurrent);
    FreshInv(maxConcurrent);
    if "" !in topics {
      forall es | Runs(s, es) && Within(es, topics) ensures Saturated(Exec(s, es)) {
        RunSaturates(s, es, topics);
      }
    } else {
      var es := [Submit("")];
      EmptyNameLeavesIdle(s, es);
      assert Within(es, topics);
    }
  }

  // ----- bounded waiting -----

  function Times(d: seq<Dispatch>, topic: string): nat {
    if d == [] then 0 else Times(d[..|d| - 1], topic) + (if d[|d| - 1].topic == topic then 1 else 0)
  }

  lemma TimesAppend(d: seq<Dispatch>, from: nat, e: Dispatch, topic: string)
    requires from <= |d|
    ensures Times((d + [e])[from..], topic) == Times(d[from..], topic) + (if e.topic == topic then 1 else 0)
  {
    assert (d + [e])[from..] == d[from..] + [e];
    assert (d[from..] + [e])[..|d[from..]|] == d[from..];
  }

  /** Dispatches a task can wait for, among `n` topics, behind `p` topics and `q` tasks of its own. */
  function WaitBound(n: nat, p: nat, q: nat): int {
    Mul(q + 1, Lap(n, p))
  }

  /** Dispatches another topic can get meanwhile. */
  function OvertakeBound(p: nat, q: nat): int {
    Mul(q + 1, p + 1)
  }

  /** The bounds in closed form. */
  lemma BoundValues(n: nat, p: nat, q: nat)
    ensures WaitBound(n, p, q) == (q + 1) * (n + p * (n - 2))
    ensures OvertakeBound(p, q) == (q + 1) * (p + 1)
  {
    MulIsProduct(p, n - 2);
    MulIsProduct(q + 1, Lap(n, p));
    MulIsProduct(q + 1, p + 1);
  }

  /** What waiting depends on: the map order, the cursor, the topic's own queue and the dispatches. */
  datatype View = View(keys: seq<string>, cursor: Option<string>, queue: seq<nat>, sent: seq<Dispatch>)

  function ViewOf(s: State, topic: string): View {
    View(s.queues.keys, s.cursor, QueueOf(s, topic), s.dispatched)
  }

  /** A task under observation: its topic, the number of topics, and, when the observation started,
      the number of dispatches, the limits that follow, and the topics and tasks that were ahead. */
  datatype Watch = Watch(id: nat, topic: string, n: nat, start: nat, p0: nat, q0: nat, other: string)

  /** The watched task and its topic are where they are said to be. */
  ghost predicate At(w: Watch, v: View, p: nat, q: nat) {
    && Distinct(v.keys) && |v.keys| <= w.n && w.start <= |v.sent| && w.other != w.topic
    && p < |v.keys| && v.keys[p] == w.topic && IndexOf(v.queue, w.id) == q
    && p <= w.p0 && q <= w.q0
  }

  /** Dispatches the watched task can still wait for. */
  ghost function Remaining(w: Watch, v: View, p: nat, q: nat): int {
    Mul(q, Lap(w.n, p)) + Distance(v.keys, v.cursor, w.n, p) + Lap(w.n, p) - w.n
  }

  ghost function Credit(v: View, p: nat, x: string): int
    requires p < |v.keys|
  {
    if Behind(v.keys, v.cursor, p, x) then 1 else 0
  }

  ghost predicate Waiting(w: Watch, v: View, p: nat, q: nat) {
    && At(w, v, p, q)
    && |v.sent| + Remaining(w, v, p, q) <= w.start + WaitBound(w.n, w.p0, w.q0)
    && Times(v.sent[w.start..], w.other) <= w.p0 - p + Mul(w.q0 - q, w.p0 + 1) + Credit(v, p, w.other)
  }

  /** The task was dispatched in time and the other topic did not overtake it too often. */
  ghost predicate ServedAt(w: Watch, sent: seq<Dispatch>, k: nat) {
    && w.start <= k < |sent| && k < w.start + WaitBound(w.n, w.p0, w.q0)
    && sent[k] == Dispatch(w.topic, w.id)
    && Times(sent[w.start..k], w.other) <= OvertakeBound(w.p0, w.q0)
  }

  /** Not dispatched, and both limits still respected. */
  ghost predicate WithinLimits(w: Watch, sent: seq<Dispatch>) {
    && w.start <= |sent| < w.start + WaitBound(w.n, w.p0, w.q0)
    && Times(sent[w.start..], w.other) <= OvertakeBound(w.p0, w.q0)
  }

  lemma WaitingWithinLimits(w: Watch, v: View, p: nat, q: nat)
    requires Waiting(w, v, p, q)
    ensures WithinLimits(w, v.sent)
  {
    DistanceWithinRound(v.keys, v.cursor, w.n, p);
    LapMonotone(w.n, p, p);
    MulMonotone(0, q, 0, Lap(w.n, p));
    MulMonotone(w.q0 - q, w.q0, w.p0 + 1, w.p0 + 1);
  }

  /** The view after another topic, at position `i`, is served. */
  ghost predicate ServesOther(v: View, v': View, i: nat, drained: bool) {
    && i < |v.keys| && PickNextTopic(v.keys, v.cursor) == Some(v.keys[i]) == v'.cursor
    && v'.keys == (if drained then WithoutIndex(v.keys, i) else v.keys) && v'.queue == v.queue
    && |v'.sent| == |v.sent| + 1 && v'.sent[..|v.sent|] == v.sent && v'.sent[|v.sent|].topic == v.keys[i]
  }

  lemma RemainingAfterOther(w: Watch, v: View, v': View, p: nat, q: nat, i: nat, drained: bool)
    requires At(w, v, p, q) && ServesOther(v, v', i, drained) && i != p
    ensures var p' := if drained && i < p then p - 1 else p;
            At(w, v', p', q) && Remaining(w, v', p', q) < Remaining(w, v, p, q)
  {
    var p' := if drained && i < p then p - 1 else p;
    ServingAnotherApproaches(v.keys, v.cursor, w.n, p, i, drained);
    WithoutIndexFacts(v.keys, i);
    LapMonotone(w.n, p, p');
    MulMonotone(q, q, Lap(w.n, p'), Lap(w.n, p));
  }

  lemma CreditAfterOther(w: Watch, v: View, v': View, p: nat, q: nat, i: nat, drained: bool)
    requires At(w, v, p, q) && ServesOther(v, v', i, drained) && i != p
    ensures var p' := if drained && i < p then p - 1 else p;
            p' < |v'.keys| && (if v.keys[i] == w.other then 1 else 0) + Credit(v, p, w.other) <= p - p' + Credit(v', p', w.other)
  {
    if Behind(v.keys, v.cursor, p, w.other) {
      if v.keys[i] == w.other {
        PickIndex(v.keys, v.cursor, i);
        IndexUnique(v.keys, i);
      } else if !(drained && i < p) {
        BehindAfterOther(v.keys, v.cursor, p, i, drained, w.other);
      }
    }
  }

  lemma WaitingAfterOther(w: Watch, v: View, v': View, p: nat, q: nat, i: nat, drained: bool)
    requires Waiting(w, v, p, q) && ServesOther(v, v', i, drained) && i != p
    ensures Waiting(w, v', if drained && i < p then p - 1 else p, q)
  {
    hide Remaining, Credit, PickNextTopic, WithoutIndex, Times, Mul;
    RemainingAfterOther(w, v, v', p, q, i, drained);
    CreditAfterOther(w, v, v', p, q, i, drained);
    TimesAppend(v.sent, w.start, v'.sent[|v.sent|], w.other);
    assert v'.sent == v.sent + [v'.sent[|v.sent|]];
  }

  /** The view after the watched topic itself serves an earlier task. */
  ghost predicate ServesOwn(w: Watch, v: View, v': View) {
    && v.queue != [] && v.queue[0] != w.id && v'.keys == v.keys && v'.queue == v.queue[1..]
    && v'.cursor == Some(w.topic) && v'.sent == v.sent + [Dispatch(w.topic, v.queue[0])]
  }

  lemma NextInQueue(queue: seq<nat>, id: nat, q: nat)
    requires q < |queue| && queue[q] == id && id !in queue[..q] && queue[0] != id
    ensures q > 0 && IndexOf(queue[1..], id) == q - 1
  {
    assert queue[1..][..q - 1] == queue[..q][1..];
    IndexIs(queue[1..], id, q - 1);
  }

  lemma OwnPlace(w: Watch, v: View, p: nat, q: nat)
    requires Waiting(w, v, p, q)
    ensures Distinct(v.keys) && p < |v.keys| && v.keys[p] == w.topic && v.queue != []
  {
  }

  lemma MoreQueued(w: Watch, v: View, p: nat, q: nat)
    requires Waiting(w, v, p, q) && v.queue != [] && v.queue[0] != w.id
    ensures |v.queue| > 1
  {
    assert v.queue[q] == w.id;
  }

  lemma WaitingAfterOwn(w: Watch, v: View, v': View, p: nat, q: nat)
    requires Waiting(w, v, p, q) && ServesOwn(w, v, v')
    ensures q > 0 && Waiting(w, v', p, q - 1)
  {
    hide IndexOf;
    NextInQueue(v.queue, w.id, q);
    IndexUnique(v.keys, p);
    DistanceWithinRound(v.keys, v.cursor, w.n, p);
    LapMonotone(w.n, p, p);
    TimesAppend(v.sent, w.start, Dispatch(w.topic, v.queue[0]), w.other);
  }

  lemma WaitingAfterArrival(w: Watch, v: View, p: nat, q: nat, x: string)
    requires Waiting(w, v, p, q) && x !in v.keys && |v.keys| < w.n
    ensures Waiting(w, v.(keys := v.keys + [x]), p, q)
  {
    ArrivalKeepsDistance(v.keys, v.cursor, w.n, p, x);
    if Behind(v.keys, v.cursor, p, w.other) {
      ArrivalKeepsBehind(v.keys, v.cursor, p, x, w.other);
    }
  }

  // ----- the views of the pool's steps -----

  lemma DispatchView(s: State, topic: string)
    requires Inv(s) && CanDispatch(s)
    ensures var v, v', x := ViewOf(s, topic), ViewOf(DispatchOne(s), topic), NextTopic(s).value;
            && x in v.keys
            && (x != topic ==> ServesOther(v, v', IndexOf(v.keys, x), |s.queues.vals[x]| == 1))
            && v'.sent == v.sent + [Dispatch(x, s.queues.vals[x][0])]
            && (x == topic ==> v'.cursor == Some(x) && v'.queue == v.queue[1..] && v.queue == s.queues.vals[x])
            && (x == topic && |v.queue| > 1 ==> v'.keys == v.keys)
  {
    NextTopicIsPick(s);
    DispatchTakesHead(s, topic);
  }

  ghost predicate OnTrack(w: Watch, s: State) {
    || (exists p: nat, q: nat :: Waiting(w, ViewOf(s, w.topic), p, q))
    || (exists k: nat :: ServedAt(w, s.dispatched, k))
    || (s.destroyed && WithinLimits(w, s.dispatched))
  }

  lemma OwnServed(w: Watch, v: View, v': View, p: nat, q: nat)
    requires Waiting(w, v, p, q) && v'.sent == v.sent + [Dispatch(w.topic, w.id)]
    ensures ServedAt(w, v'.sent, |v.sent|)
  {
    hide Waiting;
    WaitingWithinLimits(w, v, p, q);
    assert v'.sent[w.start..|v.sent|] == v.sent[w.start..];
  }

  lemma WaitingOnTrack(w: Watch, s: State, p: nat, q: nat)
    requires Inv(s) && CanDispatch(s) && Waiting(w, ViewOf(s, w.topic), p, q)
    ensures OnTrack(w, DispatchOne(s))
  {
    hide Inv, Waiting, DispatchOne, NextTopic, ServedAt;
    var v, v', x := ViewOf(s, w.topic), ViewOf(DispatchOne(s), w.topic), NextTopic(s).value;
    DispatchView(s, w.topic);
    OwnPlace(w, v, p, q);
    if x != w.topic {
      IndexUnique(v.keys, p);
      WaitingAfterOther(w, v, v', p, q, IndexOf(v.keys, x), |s.queues.vals[x]| == 1);
    } else if v.queue[0] == w.id {
      OwnServed(w, v, v', p, q);
      assert v'.sent == DispatchOne(s).dispatched;
    } else {
      MoreQueued(w, v, p, q);
      WaitingAfterOwn(w, v, v', p, q);
    }
  }

  lemma DispatchOnTrack(w: Watch, s: State)
    requires Inv(s) && CanDispatch(s) && OnTrack(w, s)
    ensures OnTrack(w, DispatchOne(s))
  {
    if p: nat, q: nat :| Waiting(w, ViewOf(s, w.topic), p, q) {
      WaitingOnTrack(w, s, p, q);
    } else {
      var k: nat :| ServedAt(w, s.dispatched, k);
      var sent := DispatchOne(s).dispatched;
      assert sent[w.start..k] == s.dispatched[w.start..k];
      assert ServedAt(w, sent, k);
    }
  }

  lemma PumpOnTrack(w: Watch, s: State)
    requires Inv(s) && OnTrack(w, s)
    ensures OnTrack(w, Pump(s))
    decreases s.maxConcurrent - s.inFlight
  {
    if CanDispatch(s) {
      DispatchOnTrack(w, s);
      DispatchKeepsInv(s);
      PumpOnTrack(w, DispatchOne(s));
    }
  }

  lemma EnqueueOnTrack(w: Watch, s: State, t: string, topics: set<string>)
    requires Inv(s) && KeysWithin(s, topics) && t in topics && w.n == |topics| && !s.destroyed
    requires OnTrack(w, s)
    ensures OnTrack(w, Enqueue(s, t))
  {
    var s' := Enqueue(s, t);
    var v, v' := ViewOf(s, w.topic), ViewOf(s', w.topic);
    if p: nat, q: nat :| Waiting(w, v, p, q) {
      if t == w.topic {
        assert v'.queue[..q] == v.queue[..q];
        IndexIs(v'.queue, w.id, q);
        assert Waiting(w, v', p, q);
      } else if t in v.keys {
        assert v' == v;
      } else {
        DistinctFits(s'.queues.keys, topics);
        WaitingAfterArrival(w, v, p, q, t);
        assert v' == v.(keys := v.keys + [t]);
      }
    } else {
      var k: nat :| ServedAt(w, s.dispatched, k);
      assert ServedAt(w, s'.dispatched, k);
    }
  }

  lemma StepOnTrack(w: Watch, s: State, e: Event, topics: set<string>)
    requires Inv(s) && Enabled(s, e) && KeysWithin(s, topics) && Within([e], topics) && w.n == |topics|
    requires OnTrack(w, s)
    ensures OnTrack(w, Step(s, e))
  {
    match e
    case Submit(t) =>
      assert e in [e];
      if !s.destroyed {
        EnqueueOnTrack(w, s, t, topics);
        EnqueueKeepsInv(s, t);
        PumpOnTrack(w, Enqueue(s, t));
      }
    case Settle(task, o) =>
      var s' := Account(s, task, o);
      AccountKeepsInv(s, task, o);
      assert ViewOf(s', w.topic) == ViewOf(s, w.topic);
      PumpOnTrack(w, s');
    case Destroy =>
      if p: nat, q: nat :| Waiting(w, ViewOf(s, w.topic), p, q) {
        WaitingWithinLimits(w, ViewOf(s, w.topic), p, q);
      }
  }

  lemma {:induction false} RunOnTrack(w: Watch, s: State, es: seq<Event>, topics: set<string>)
    requires Inv(s) && Runs(s, es) && KeysWithin(s, topics) && Within(es, topics) && w.n == |topics|
    requires OnTrack(w, s)
    ensures OnTrack(w, Exec(s, es))
    decreases |es|
  {
    if es != [] {
      StepOnTrack(w, s, es[0], topics);
      StepKeepsInv(s, es[0]);
      StepKeysWithin(s, es[0], topics);
      RunOnTrack(w, Step(s, es[0]), es[1..], topics);
    }
  }

  /** The watch over a queued task that starts now: `p0` topics are ahead of its topic in map order and
      `q0` tasks ahead of it in its own queue. */
  function WatchFrom(s: State, id: nat, topic: string, n: nat, other: string): Watch
    requires topic in s.queues.vals && id in s.queues.vals[topic]
  {
    Watch(id, topic, n, |s.dispatched|, IndexOf(s.queues.keys, topic), IndexOf(s.queues.vals[topic], id), other)
  }

  lemma WatchStarts(w: Watch, s: State)
    requires Inv(s) && |s.queues.keys| <= w.n && w.other != w.topic
    requires w.topic in s.queues.vals && w.id in s.queues.vals[w.topic]
    requires w == WatchFrom(s, w.id, w.topic, w.n, w.other)
    ensures OnTrack(w, s)
  {
    var v := ViewOf(s, w.topic);
    DistanceWithinRound(v.keys, v.cursor, w.n, w.p0);
    assert v.sent[w.start..] == [];
    assert Waiting(w, v, w.p0, w.q0);
  }

  /** Bounded waiting. Among at most `n` topics, with arbitrary submissions in between, a task with `q`
      tasks ahead in its own queue whose topic has `p` topics ahead in map order is dispatched within
      WaitBound(n, p, q) == (q + 1) * (n + p * (n - 2)) dispatches, and until then no other topic is
      dispatched more than OvertakeBound(p, q) == (q + 1) * (p + 1) times. As long as the task is not
      dispatched, both limits hold too. */
  lemma BoundedWaiting(s: State, es: seq<Event>, topics: set<string>, id: nat, topic: string, other: string)
    requires Inv(s) && Runs(s, es) && KeysWithin(s, topics) && Within(es, topics)
    requires topic in s.queues.vals && id in s.queues.vals[topic] && other != topic
    ensures var w := WatchFrom(s, id, topic, |topics|, other);
            WithinLimits(w, Exec(s, es).dispatched) || exists k: nat :: ServedAt(w, Exec(s, es).dispatched, k)
  {
    var w := WatchFrom(s, id, topic, |topics|, other);
    DistinctFits(s.queues.keys, topics);
    WatchStarts(w, s);
    RunOnTrack(w, s, es, topics);
    var v := ViewOf(Exec(s, es), topic);
    if p: nat, q: nat :| Waiting(w, v, p, q) {
      WaitingWithinLimits(w, v, p, q);
    }
  }

  // ----- the empty topic name -----

  lemma PumpNeverServesEmpty(s: State)
    ensures |s.dispatched| <= |Pump(s).dispatched|
    ensures forall k :: |s.dispatched| <= k < |Pump(s).dispatched| ==> Pump(s).dispatched[k].topic != ""
    decreases s.maxConcurrent - s.inFlight
  {
    if CanDispatch(s) { PumpNeverServesEmpty(DispatchOne(s)); PumpExtends(DispatchOne(s)); }
  }

  lemma PumpExtends(s: State)
    ensures s.dispatched <= Pump(s).dispatched
    decreases s.maxConcurrent - s.inFlight
  {
    if CanDispatch(s) { PumpExtends(DispatchOne(s)); }
  }

  lemma {:induction false} RunNeverServesEmpty(s: State, es: seq<Event>)
    ensures s.dispatched <= Exec(s, es).dispatched
    ensures forall k :: |s.dispatched| <= k < |Exec(s, es).dispatched| ==> Exec(s, es).dispatched[k].topic != ""
    decreases |es|
  {
    if es != [] {
      match es[0] {
        case Submit(t) => if !s.destroyed { PumpNeverServesEmpty(Enqueue(s, t)); PumpExtends(Enqueue(s, t)); }
        case Settle(task, o) => PumpNeverServesEmpty(Account(s, task, o)); PumpExtends(Account(s, task, o));
        case Destroy =>
      }
      RunNeverServesEmpty(Step(s, es[0]), es[1..]);
    }
  }

  /** One task under the empty name stalls every topic: whatever is submitted or settled afterwards,
      the pool dispatches fewer tasks than one wait for that name would allow, in total. */
  lemma EmptyNameStallsAll(s: State, es: seq<Event>, topics: set<string>)
    requires Inv(s) && Runs(s, es) && KeysWithin(s, topics) && Within(es, topics) && "" in s.queues.vals
    ensures var n, p := |topics|, IndexOf(s.queues.keys, "");
            |Exec(s, es).dispatched| < |s.dispatched| + WaitBound(n, p, 0)
  {
    var q := s.queues.vals[""];
    assert q[0] == q[..][0];
    IndexIs(q, q[0], 0);
    BoundedWaiting(s, es, topics, q[0], "", "other");
    RunNeverServesEmpty(s, es);
  }
}
