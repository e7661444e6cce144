/** How fair the round robin is: overtaking comes only from topics ahead that drain, and the bound is reached. */
module FairShare {
  import opened OrderedMaps
  import opened FairScheduler
  import opened FairPool
  import opened FairWaiting

  /** The task is still queued; `p` topics are ahead of its topic and `q` tasks ahead of it in its queue. */
  ghost predicate StillQueued(s: State, id: nat, topic: string, p: nat, q: nat) {
    && topic in s.queues.vals && id in s.queues.vals[topic]
    && p == IndexOf(s.queues.keys, topic) && q == IndexOf(s.queues.vals[topic], id)
  }

  lemma QueuedIsNotServed(s: State, w: Watch, k: nat)
    requires Inv(s) && w.topic in s.queues.vals && w.id in s.queues.vals[w.topic]
    ensures !ServedAt(w, s.dispatched, k)
  {
    var i := IndexOf(s.queues.vals[w.topic], w.id);
    assert QueueOf(s, w.topic)[i] == w.id;
    QueuedIsFresh(s, w.topic, i);
    if k < |s.dispatched| && s.dispatched[k] == Dispatch(w.topic, w.id) {
      assert WasDispatched(s, w.id);
      assert false;
    }
  }

  lemma PlacesAre(w: Watch, s: State, p: nat, q: nat)
    requires Inv(s) && w.topic in s.queues.vals && Waiting(w, ViewOf(s, w.topic), p, q)
    ensures p == IndexOf(s.queues.keys, w.topic) && q == IndexOf(s.queues.vals[w.topic], w.id) && p <= w.p0 && q <= w.q0
    ensures Times(s.dispatched[w.start..], w.other) <= w.p0 - p + Mul(w.q0 - q, w.p0 + 1) + 1
  {
    IndexUnique(s.queues.keys, p);
  }

  lemma QueuedMeansLive(s: State, topic: string)
    requires Inv(s) && topic in s.queues.vals
    ensures !s.destroyed && |s.queues.keys| > 0
  {
    assert topic in s.queues.keys;
  }

  lemma QueuedIsWaiting(w: Watch, s: State) returns (p: nat, q: nat)
    requires Inv(s) && OnTrack(w, s) && w.topic in s.queues.vals && w.id in s.queues.vals[w.topic]
    ensures Waiting(w, ViewOf(s, w.topic), p, q)
  {
    hide Inv, Waiting, ServedAt, WithinLimits;
    QueuedMeansLive(s, w.topic);
    forall k: nat ensures !ServedAt(w, s.dispatched, k) { QueuedIsNotServed(s, w, k); }
    p, q :| Waiting(w, ViewOf(s, w.topic), p, q);
  }

  /** While a task waits, another topic is served at most once more than topics ahead of it have drained, and again
      that often for every task ahead of it in its own queue. */
  lemma OvertakingComesFromDrains(s: State, es: seq<Event>, topics: set<string>, id: nat, topic: string, other: string,
                                  p0: nat, q0: nat, p: nat, q: nat)
    requires Inv(s) && Runs(s, es) && KeysWithin(s, topics) && Within(es, topics) && other != topic
    requires StillQueued(s, id, topic, p0, q0) && StillQueued(Exec(s, es), id, topic, p, q)
    ensures p <= p0 && q <= q0 && |s.dispatched| <= |Exec(s, es).dispatched|
    ensures Times(Exec(s, es).dispatched[|s.dispatched|..], other) <= p0 - p + Mul(q0 - q, p0 + 1) + 1
  {
    hide Inv, Waiting, OnTrack, Exec, Runs, KeysWithin, Within, Times, Mul, IndexOf;
    RunNeverServesEmpty(s, es);
    var w := WatchFrom(s, id, topic, |topics|, other);
    KeysFit(s, topics);
    WatchStarts(w, s);
    RunOnTrack(w, s, es, topics);
    RunKeepsInv(s, es);
    var p', q' := QueuedIsWaiting(w, Exec(s, es));
    PlacesAre(w, Exec(s, es), p', q');
  }

  lemma KeysFit(s: State, topics: set<string>)
    requires KeysWithin(s, topics)
    ensures |s.queues.keys| <= |topics|
  {
    DistinctFits(s.queues.keys, topics);
  }

  /** An equal share as long as no topic ahead drains: while the first task of a topic waits and its place in the
      order is unchanged, no other topic is served twice. */
  lemma FairUntilDrain(s: State, es: seq<Event>, topics: set<string>, id: nat, topic: string, other: string, p: nat, q: nat)
    requires Inv(s) && Runs(s, es) && KeysWithin(s, topics) && Within(es, topics) && other != topic
    requires StillQueued(s, id, topic, p, q) && StillQueued(Exec(s, es), id, topic, p, q)
    ensures |s.dispatched| <= |Exec(s, es).dispatched|
    ensures Times(Exec(s, es).dispatched[|s.dispatched|..], other) <= 1
  {
    OvertakingComesFromDrains(s, es, topics, id, topic, other, p, q, p, q);
  }

  // ----- the bound is reached -----

  lemma SubmitToFullPool(s: State, topic: string)
    requires !s.destroyed && s.inFlight >= s.maxConcurrent
    ensures Step(s, Submit(topic)) == Enqueue(s, topic)
  {
  }

  /** With one slot, a task that settles makes room for the topic whose turn it is. */
  lemma SettleServes(s: State, task: nat, x: string)
    requires s.maxConcurrent == s.inFlight == 1 && !s.destroyed && x != ""
    requires PickNextTopic(s.queues.keys, s.cursor) == Some(x) && x in s.queues.vals && |s.queues.vals[x]| == 1
    requires forall t :: t in s.queues.vals ==> s.queues.vals[t] != []
    ensures Step(s, Settle(task, Resolved(true))) ==
            s.(queues := s.queues.Delete(x), cursor := Some(x), completed := s.completed + 1,
               dispatched := s.dispatched + [Dispatch(x, s.queues.vals[x][0])], settled := s.settled + [Settlement(task, Resolved(true))])
  {
    var a := Account(s, task, Resolved(true));
    NonEmptyTopicsFacts(a.queues, |a.queues.keys|);
    assert a.queues.keys[..|a.queues.keys|] == a.queues.keys;
    assert NextTopic(a) == Some(x) && CanDispatch(a);
    assert !CanDispatch(DispatchOne(a));
    assert Pump(a) == DispatchOne(a);
  }

  lemma EnqueueNew(s: State, topic: string)
    requires topic !in s.queues.vals
    ensures Enqueue(s, topic).queues == OMap(s.queues.keys + [topic], s.queues.vals[topic := [|s.accepted|]])
  {
    assert [] + [|s.accepted|] == [|s.accepted|];
  }

  /** A pool with one slot, taken, and at most one task for each queued topic. */
  function Busy(queues: Queues, cursor: string, accepted: seq<string>, dispatched: seq<Dispatch>, settled: seq<Settlement>): State {
    State(1, queues, 1, Some(cursor), false, |settled|, 0, accepted, dispatched, settled)
  }

  lemma FliesWhenLast(s: State, d: Dispatch)
    requires s.dispatched != [] && d == s.dispatched[|s.dispatched| - 1] && !WasSettled(s, d.task)
    ensures d.task in Flying(s)
  {
    assert d in s.dispatched;
  }

  function Done(task: nat): Settlement {
    Settlement(task, Resolved(true))
  }

  function Finish(task: nat): Event {
    Settle(task, Resolved(true))
  }

  predicate Three(t: string, h: string, x: string) {
    t != h && h != x && t != x && t != "" && h != "" && x != ""
  }

  // `t` waits behind `h`; `x` is served, then `h`, whose drain resets the rotation; both come back, `x` last.

  function Waits(t: string, h: string, x: string): State
    requires Three(t, h, x)
  {
    Busy(OMap([h, t, x], map[h := [1], t := [2], x := [3]]), t, [t, h, t, x], [Dispatch(t, 0)], [])
  }

  function ServedX(t: string, h: string, x: string): State
    requires Three(t, h, x)
  {
    Busy(OMap([h, t], map[h := [1], t := [2]]), x, [t, h, t, x], [Dispatch(t, 0), Dispatch(x, 3)], [Done(0)])
  }

  function Drained(t: string, h: string, x: string): State
    requires Three(t, h, x)
  {
    Busy(OMap([t], map[t := [2]]), h, [t, h, t, x], [Dispatch(t, 0), Dispatch(x, 3), Dispatch(h, 1)], [Done(0), Done(3)])
  }

  function BackAgain(t: string, h: string, x: string): State
    requires Three(t, h, x)
  {
    Busy(OMap([t, h, x], map[t := [2], h := [4], x := [5]]), h, [t, h, t, x, h, x],
         [Dispatch(t, 0), Dispatch(x, 3), Dispatch(h, 1)], [Done(0), Done(3)])
  }

  function ServedTwice(t: string, h: string, x: string): State
    requires Three(t, h, x)
  {
    Busy(OMap([t, h], map[t := [2], h := [4]]), x, [t, h, t, x, h, x],
         [Dispatch(t, 0), Dispatch(x, 3), Dispatch(h, 1), Dispatch(x, 5)], [Done(0), Done(3), Done(1)])
  }

  /** Deleting the `i`-th key of a map. */
  lemma DeleteAt(q: Queues, i: nat, rest: Queues)
    requires i < |q.keys| && rest.keys == WithoutIndex(q.keys, i) && rest.vals == q.vals - {q.keys[i]}
    ensures q.Delete(q.keys[i]) == rest
  {
    IndexUnique(q.keys, i);
  }

  /** One task settles and the topic at place `i`, whose turn it is, is served. */
  lemma ServeNext(queues: Queues, cursor: string, accepted: seq<string>, dispatched: seq<Dispatch>, settled: seq<Settlement>,
                  task: nat, i: nat, rest: Queues)
    requires i < |queues.keys| && PickNextTopic(queues.keys, Some(cursor)) == Some(queues.keys[i])
    requires queues.keys[i] != "" && |queues.vals[queues.keys[i]]| == 1 && forall t :: t in queues.vals ==> queues.vals[t] != []
    requires rest.keys == WithoutIndex(queues.keys, i) && rest.vals == queues.vals - {queues.keys[i]}
    requires dispatched != [] && dispatched[|dispatched| - 1].task == task && forall r :: r in settled ==> r.task != task
    ensures var x := queues.keys[i]; var s := Busy(queues, cursor, accepted, dispatched, settled);
            && Enabled(s, Finish(task))
            && Step(s, Finish(task)) ==
               Busy(rest, x, accepted, dispatched + [Dispatch(x, queues.vals[x][0])], settled + [Done(task)])
  {
    hide Step, PickNextTopic, OMap.Delete;
    var s := Busy(queues, cursor, accepted, dispatched, settled);
    FliesWhenLast(s, dispatched[|dispatched| - 1]);
    DeleteAt(queues, i, rest);
    SettleServes(s, task, queues.keys[i]);
  }

  lemma Picks(t: string, h: string, x: string)
    requires Three(t, h, x)
    ensures PickNextTopic([h, t, x], Some(t)) == Some(x) && PickNextTopic([h, t], Some(x)) == Some(h)
    ensures PickNextTopic([t, h, x], Some(h)) == Some(x)
  {
    IndexIs([h, t, x], t, 1);
    IndexIs([t, h, x], h, 1);
  }

  lemma Rests(t: string, h: string, x: string)
    requires Three(t, h, x)
    ensures WithoutIndex([h, t, x], 2) == [h, t] && WithoutIndex([h, t], 0) == [t] && WithoutIndex([t, h, x], 2) == [t, h]
    ensures map[h := [1], t := [2], x := [3]] - {x} == map[h := [1], t := [2]]
    ensures map[h := [1], t := [2]] - {h} == map[t := [2]]
    ensures map[t := [2], h := [4], x := [5]] - {x} == map[t := [2], h := [4]]
  {
  }

  lemma FirstServe(t: string, h: string, x: string)
    requires Three(t, h, x)
    ensures Step(Waits(t, h, x), Finish(0)) == ServedX(t, h, x) && Enabled(Waits(t, h, x), Finish(0))
  {
    hide Step, Enabled, PickNextTopic, WithoutIndex;
    Picks(t, h, x);
    Rests(t, h, x);
    ServeNext(Waits(t, h, x).queues, t, [t, h, t, x], [Dispatch(t, 0)], [], 0, 2, ServedX(t, h, x).queues);
  }

  lemma ServeHead(t: string, h: string, x: string)
    requires Three(t, h, x)
    ensures Step(ServedX(t, h, x), Finish(3)) == Drained(t, h, x) && Enabled(ServedX(t, h, x), Finish(3))
  {
    hide Step, Enabled, PickNextTopic, WithoutIndex;
    Picks(t, h, x);
    Rests(t, h, x);
    ServeNext(ServedX(t, h, x).queues, x, [t, h, t, x], [Dispatch(t, 0), Dispatch(x, 3)], [Done(0)], 3, 0, Drained(t, h, x).queues);
  }

  lemma ComeBack(t: string, h: string, x: string)
    requires Three(t, h, x)
    ensures Step(Step(Drained(t, h, x), Submit(h)), Submit(x)) == BackAgain(t, h, x)
  {
    var s := Drained(t, h, x);
    SubmitToFullPool(s, h);
    SubmitToFullPool(Step(s, Submit(h)), x);
    EnqueueNew(s, h);
    EnqueueNew(Step(s, Submit(h)), x);
    assert [t] + [h] == [t, h] && [t, h] + [x] == [t, h, x];
    assert Step(s, Submit(h)).queues == OMap([t, h], map[t := [2], h := [4]]);
    assert Step(Step(s, Submit(h)), Submit(x)).queues == BackAgain(t, h, x).queues;
  }

  lemma SecondServe(t: string, h: string, x: string)
    requires Three(t, h, x)
    ensures Step(BackAgain(t, h, x), Finish(1)) == ServedTwice(t, h, x) && Enabled(BackAgain(t, h, x), Finish(1))
  {
    hide Step, Enabled, PickNextTopic, WithoutIndex;
    Picks(t, h, x);
    Rests(t, h, x);
    ServeNext(BackAgain(t, h, x).queues, h, [t, h, t, x, h, x], [Dispatch(t, 0), Dispatch(x, 3), Dispatch(h, 1)],
              [Done(0), Done(3)], 1, 2, ServedTwice(t, h, x).queues);
  }

  lemma FirstSubmit(t: string)
    requires t != ""
    ensures Step(Fresh(1), Submit(t)) == Busy(OMap([], map[]), t, [t], [Dispatch(t, 0)], [])
  {
    var a := Enqueue(Fresh(1), t);
    EnqueueNew(Fresh(1), t);
    assert [] + [t] == [t];
    assert a.queues == OMap([t], map[t := [0]]);
    NonEmptyTopicsFacts(a.queues, 1);
    assert a.queues.keys[..1] == [t];
    assert NextTopic(a) == Some(t) && CanDispatch(a);
    IndexIs([t], t, 0);
    assert DispatchOne(a).queues == OMap([], map[]);
    assert !CanDispatch(DispatchOne(a));
    assert Pump(a) == DispatchOne(a);
  }

  lemma OthersArrive(t: string, h: string, x: string)
    requires Three(t, h, x)
    ensures Step(Step(Step(Busy(OMap([], map[]), t, [t], [Dispatch(t, 0)], []), Submit(h)), Submit(t)), Submit(x)) == Waits(t, h, x)
  {
    var s := Busy(OMap([], map[]), t, [t], [Dispatch(t, 0)], []);
    assert [] + [h] == [h] && [h] + [t] == [h, t] && [h, t] + [x] == [h, t, x];
    EnqueueNew(s, h);
    SubmitToFullPool(s, h);
    var s1 := Step(s, Submit(h));
    assert s1.queues == OMap([h], map[h := [1]]);
    EnqueueNew(s1, t);
    SubmitToFullPool(s1, t);
    var s2 := Step(s1, Submit(t));
    assert s2.queues == OMap([h, t], map[h := [1], t := [2]]);
    EnqueueNew(s2, x);
    SubmitToFullPool(s2, x);
    assert Step(s2, Submit(x)).queues == Waits(t, h, x).queues;
  }

  function Arrivals(t: string, h: string, x: string): seq<Event> {
    [Submit(t), Submit(h), Submit(t), Submit(x)]
  }

  function Meanwhile(h: string, x: string): seq<Event> {
    [Finish(0), Finish(3), Submit(h), Submit(x), Finish(1)]
  }

  lemma RunsTo(s: State, e: Event, es: seq<Event>, end: State)
    requires Enabled(s, e) && Runs(Step(s, e), es) && Exec(Step(s, e), es) == end
    ensures Runs(s, [e] + es) && Exec(s, [e] + es) == end
  {
    assert ([e] + es)[1..] == es;
  }

  lemma MeanwhileRuns(t: string, h: string, x: string)
    requires Three(t, h, x)
    ensures Runs(Waits(t, h, x), Meanwhile(h, x)) && Exec(Waits(t, h, x), Meanwhile(h, x)) == ServedTwice(t, h, x)
  {
    hide Step, Enabled, Waits, ServedX, Drained, BackAgain, ServedTwice;
    var end := ServedTwice(t, h, x);
    FirstServe(t, h, x);
    ServeHead(t, h, x);
    ComeBack(t, h, x);
    SecondServe(t, h, x);
    SubmitsAreEnabled(Drained(t, h, x), h);
    SubmitsAreEnabled(Step(Drained(t, h, x), Submit(h)), x);
    RunsTo(BackAgain(t, h, x), Finish(1), [], end);
    RunsTo(Step(Drained(t, h, x), Submit(h)), Submit(x), [Finish(1)] + [], end);
    RunsTo(Drained(t, h, x), Submit(h), [Submit(x)] + ([Finish(1)] + []), end);
    RunsTo(ServedX(t, h, x), Finish(3), [Submit(h)] + ([Submit(x)] + ([Finish(1)] + [])), end);
    RunsTo(Waits(t, h, x), Finish(0), [Finish(3)] + ([Submit(h)] + ([Submit(x)] + ([Finish(1)] + []))), end);
    assert Meanwhile(h, x) == [Finish(0)] + ([Finish(3)] + ([Submit(h)] + ([Submit(x)] + ([Finish(1)] + []))));
  }

  lemma SubmitsAreEnabled(s: State, topic: string)
    ensures Enabled(s, Submit(topic))
  {
  }

  lemma ArrivalsRun(t: string, h: string, x: string)
    requires Three(t, h, x)
    ensures Runs(Fresh(1), Arrivals(t, h, x)) && Exec(Fresh(1), Arrivals(t, h, x)) == Waits(t, h, x)
  {
    hide Step, Enabled, Fresh, Waits;
    var end := Waits(t, h, x);
    var s1 := Step(Fresh(1), Submit(t));
    var s2 := Step(s1, Submit(h));
    var s3 := Step(s2, Submit(t));
    FirstSubmit(t);
    OthersArrive(t, h, x);
    SubmitsAreEnabled(Fresh(1), t);
    SubmitsAreEnabled(s1, h);
    SubmitsAreEnabled(s2, t);
    SubmitsAreEnabled(s3, x);
    RunsTo(s3, Submit(x), [], end);
    RunsTo(s2, Submit(t), [Submit(x)] + [], end);
    RunsTo(s1, Submit(h), [Submit(t)] + ([Submit(x)] + []), end);
    RunsTo(Fresh(1), Submit(t), [Submit(h)] + ([Submit(t)] + ([Submit(x)] + [])), end);
    assert Arrivals(t, h, x) == [Submit(t)] + ([Submit(h)] + ([Submit(t)] + ([Submit(x)] + [])));
  }

  /** Shares are not equal: behind one topic that drains and comes back, the first task of a topic is overtaken twice
      by the same topic, which is the bound. */
  lemma OvertakenTwice(t: string, h: string, x: string)
    requires Three(t, h, x)
    ensures var s := Exec(Fresh(1), Arrivals(t, h, x)); var end := Exec(s, Meanwhile(h, x));
            && Runs(Fresh(1), Arrivals(t, h, x)) && Runs(s, Meanwhile(h, x))
            && StillQueued(s, 2, t, 1, 0) && StillQueued(end, 2, t, 0, 0)
            && |s.dispatched| <= |end.dispatched| && Times(end.dispatched[|s.dispatched|..], x) == 2 == OvertakeBound(1, 0)
  {
    hide Step, Exec, Runs, Times;
    ArrivalsRun(t, h, x);
    MeanwhileRuns(t, h, x);
    IndexIs([h, t, x], t, 1);
    IndexIs([t, h], t, 0);
    IndexIs([2], 2, 0);
    BoundValues(3, 1, 0);
    CountOfX(h, x);
    assert ServedTwice(t, h, x).dispatched[1..] == [Dispatch(x, 3), Dispatch(h, 1), Dispatch(x, 5)];
  }

  lemma CountOfX(h: string, x: string)
    requires h != x
    ensures Times([Dispatch(x, 3), Dispatch(h, 1), Dispatch(x, 5)], x) == 2
  {
    TimesPlus([], Dispatch(x, 3), x);
    TimesPlus([Dispatch(x, 3)], Dispatch(h, 1), x);
    TimesPlus([Dispatch(x, 3), Dispatch(h, 1)], Dispatch(x, 5), x);
    assert [] + [Dispatch(x, 3)] == [Dispatch(x, 3)] && [Dispatch(x, 3)] + [Dispatch(h, 1)] == [Dispatch(x, 3), Dispatch(h, 1)];
    assert [Dispatch(x, 3), Dispatch(h, 1)] + [Dispatch(x, 5)] == [Dispatch(x, 3), Dispatch(h, 1), Dispatch(x, 5)];
  }

  lemma TimesPlus(d: seq<Dispatch>, e: Dispatch, topic: string)
    ensures Times(d + [e], topic) == Times(d, topic) + (if e.topic == topic then 1 else 0)
  {
    assert (d + [e])[..|d|] == d;
  }
}
