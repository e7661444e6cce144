/** The supervisor and the router as the objects their callers use. The router's inheritance from the
    supervisor is composition here. */
module RouterObjects {
  import opened OrderedMaps
  import opened Supervisor
  import SupervisorHistory
  import TopicRouter

  class BaseSupervisor {
    const maxRetries: nat
    var actors: map<string, Actor>
    var totalSpawned: nat
    var totalRestarted: nat
    var totalReaped: nat
    var totalFailed: nat
    ghost var events: seq<Event>
    var incarnations: nat
    ghost var owners: seq<string>

    ghost function Abs(): State
      reads this
    {
      State(maxRetries, actors, totalSpawned, totalRestarted, totalReaped, totalFailed, events, owners)
    }

    ghost predicate Valid()
      reads this
    {
      Inv(Abs()) && incarnations == |owners|
    }

    constructor (maxRetries: nat)
      ensures Valid() && Abs() == Initial(maxRetries)
    {
      this.maxRetries := maxRetries;
      actors := map[];
      totalSpawned, totalRestarted, totalReaped, totalFailed := 0, 0, 0, 0;
      events, owners, incarnations := [], [], 0;
      new;
      InitialInv(maxRetries);
    }

    method ApplyEvent(key: string, e: Trigger, kind: Kind)
      requires key in actors
      modifies this`actors, this`events, this`totalFailed
      ensures Abs() == Apply(old(Abs()), key, e, kind)
    {
      var a := actors[key];
      var next := TransitionSubagent(a.state, e);
      if next == a.state {
        return;
      }
      actors := actors[key := a.(state := next)];
      events := events + [Event(kind, key, a.incarnation, a.retryCount, a.state, next)];
      if next == Failed {
        totalFailed := totalFailed + 1;
      }
    }

    /** The shared end of spawn and restart: a new record, dispatched at once, then given its worker. */
    method EnterActor(key: string, retryCount: nat, kind: Kind, resource: Option<nat>)
      requires incarnations == |owners|
      modifies this
      ensures incarnations == |owners|
      ensures Abs() == Enter(old(Abs()), key, retryCount, old(totalSpawned), old(totalRestarted), kind, resource)
    {
      ghost var before := Abs();
      actors := actors[key := Actor(key, Created, retryCount, None, incarnations)];
      incarnations := incarnations + 1;
      owners := owners + [key];
      assert Abs() == Register(before, key, retryCount, totalSpawned, totalRestarted);
      ApplyEvent(key, Dispatch, kind);
      actors := actors[key := actors[key].(resource := resource)];
    }

    method SpawnActor(key: string, resource: Option<nat>) returns (ok: bool)
      requires Valid()
      modifies this
      ensures Valid() && Abs() == Spawn(old(Abs()), key, resource)
      ensures ok == (key !in old(actors))
    {
      hide Supervisor.Inv;
      SpawnInv(Abs(), key, resource);
      if key in actors {
        return false;
      }
      totalSpawned := totalSpawned + 1;
      EnterActor(key, 0, Spawned, resource);
      ok := true;
    }

    method SignalActor(key: string, e: Trigger) returns (ok: bool)
      requires Valid()
      modifies this
      ensures Valid() && Abs() == Signal(old(Abs()), key, e)
      ensures ok == (key in old(actors))
    {
      if key !in actors {
        return false;
      }
      ApplyInv(Abs(), key, e, MapEvent(e));
      ApplyEvent(key, e, MapEvent(e));
      ok := true;
    }

    /** Drives the key's run to its end if it is still active. */
    method EndRun(key: string)
      requires key in actors
      modifies this`actors, this`events, this`totalFailed
      ensures Abs() == Terminate(old(Abs()), key)
    {
      if !IsTerminal(actors[key].state) {
        ApplyEvent(key, Error, Crashed);
      }
    }

    method RestartActor(key: string, resource: Option<nat>) returns (restarted: bool)
      requires Valid()
      modifies this
      ensures Valid() && Abs() == Restart(old(Abs()), key, resource)
      ensures restarted == (key in old(actors) && old(actors)[key].retryCount < maxRetries)
      ensures key in old(actors) ==>
                key in actors && actors[key].retryCount == old(actors)[key].retryCount + (if restarted then 1 else 0)
    {
      hide Supervisor.Inv, Restart;
      ghost var before := Abs();
      SupervisorHistory.StepLife(before, OpRestart(key, resource), key);
      restarted := RestartRun(key, resource);
      RestartInv(before, key, resource);
    }

    method RestartRun(key: string, resource: Option<nat>) returns (restarted: bool)
      requires incarnations == |owners|
      modifies this
      ensures incarnations == |owners| && Abs() == Restart(old(Abs()), key, resource)
      ensures restarted == (key in old(actors) && old(actors)[key].retryCount < maxRetries)
    {
      if key !in actors {
        return false;
      }
      ghost var before := Abs();
      var retryCount := actors[key].retryCount;
      EndRun(key);
      if retryCount >= maxRetries {
        return false;
      }
      ghost var ended := Abs();
      totalRestarted := totalRestarted + 1;
      EnterActor(key, retryCount + 1, Restarted, resource);
      assert Abs() == Renew(ended, key, retryCount + 1, resource);
      restarted := true;
    }

    method ReapActor(key: string)
      requires Valid()
      modifies this
      ensures Valid() && Abs() == Reap(old(Abs()), key)
    {
      ReapInv(Abs(), key);
      if key !in actors {
        return;
      }
      var a := actors[key];
      var next := TransitionSubagent(a.state, Archive);
      events := events + [Event(Reaped, key, a.incarnation, a.retryCount, a.state, next)];
      actors := actors - {key};
      totalReaped := totalReaped + 1;
    }

    /** Reaps every actor, one after the other; nothing is left. */
    method Stop() returns (ghost keys: seq<string>)
      requires Valid()
      modifies this
      ensures Valid() && actors == map[] && totalReaped == totalSpawned
      ensures Distinct(keys) && forall key :: key in keys <==> key in old(actors)
      ensures Abs() == Supervisor.Step(old(Abs()), OpStop(keys))
    {
      hide Supervisor.Inv;
      keys := [];
      while actors.Keys != {}
        invariant Valid() && Distinct(keys)
        invariant forall key :: key in old(actors) <==> key in keys || key in actors
        invariant forall key :: key in keys ==> key !in actors
        invariant Abs() == ReapAll(old(Abs()), keys)
        decreases actors.Keys
      {
        var key :| key in actors.Keys;
        ReapOneMore(old(Abs()), keys, key);
        ReapActor(key);
        keys := keys + [key];
      }
      NoneLeft(Abs());
    }
  }

  lemma ReapOneMore(s: State, keys: seq<string>, key: string)
    ensures ReapAll(s, keys + [key]) == Reap(ReapAll(s, keys), key)
  {
    assert (keys + [key])[..|keys|] == keys;
  }

  lemma NoneLeft(s: State)
    requires Supervisor.Inv(s) && s.actors.Keys == {}
    ensures s.actors == map[] && s.totalReaped == s.totalSpawned
  {
    assert |s.actors| == 0;
  }

  lemma ReadyToPost(r: TopicRouter.Router, topic: string)
    requires TopicRouter.Inv(r)
    ensures r.requestCounter + 1 !in r.pending && (topic in r.sup.actors ==> r.sup.actors[topic].resource.Some?)
  {
    TopicRouter.NextIdIsFree(r);
    assert topic in r.sup.actors ==> TopicRouter.TopicOk(r, topic);
  }

  /** The ids of the set, smallest first. */
  ghost predicate Ascending(order: seq<nat>, ids: set<nat>) {
    (forall i, j :: 0 <= i < j < |order| ==> order[i] < order[j]) && forall id :: id in order <==> id in ids
  }

  lemma AscendingAppend(order: seq<nat>, ids: set<nat>, id: nat)
    requires Ascending(order, ids) && forall x :: x in ids ==> x < id
    ensures Ascending(order + [id], ids + {id})
  {
    assert forall i :: 0 <= i < |order| ==> order[i] in ids;
  }

  lemma {:induction false} LeastOf(ids: set<nat>) returns (least: nat)
    requires ids != {}
    ensures least in ids && forall x :: x in ids ==> least <= x
    decreases |ids|
  {
    var some :| some in ids;
    var smaller := set x | x in ids && x < some;
    if smaller == {} {
      assert forall x :: x in ids && x < some ==> x in smaller;
      least := some;
    } else {
      assert some !in smaller && smaller <= ids - {some};
      CountSubset(smaller, ids - {some});
      least := LeastOf(smaller);
      assert forall x :: x in ids ==> x in smaller || some <= x;
    }
  }

  lemma {:induction false} CountSubset(a: set<nat>, b: set<nat>)
    requires a <= b
    ensures |a| <= |b|
    decreases |a|
  {
    if a != {} {
      var x :| x in a;
      CountSubset(a - {x}, b - {x});
    }
  }

  method InOrder(ids: set<nat>) returns (order: seq<nat>)
    ensures Ascending(order, ids)
  {
    order := [];
    var rest := ids;
    while rest != {}
      invariant rest <= ids && Ascending(order, ids - rest)
      invariant forall id, x :: id in ids - rest && x in rest ==> id < x
      decreases rest
    {
      ghost var least := LeastOf(rest);
      var id :| id in rest && forall x :: x in rest ==> id <= x;
      AscendingAppend(order, ids - rest, id);
      assert ids - rest + {id} == ids - (rest - {id});
      order, rest := order + [id], rest - {id};
    }
    assert ids - rest == ids;
  }

  function Among(order: seq<nat>, n: nat): set<nat>
    requires n <= |order|
  {
    set k | 0 <= k < n :: order[k]
  }

  lemma AmongStep(order: seq<nat>, ids: set<nat>, n: nat)
    requires Ascending(order, ids) && n < |order|
    ensures order[n] !in Among(order, n) && Among(order, n + 1) == Among(order, n) + {order[n]}
  {
  }

  lemma AmongEnds(order: seq<nat>, ids: set<nat>)
    requires Ascending(order, ids)
    ensures Among(order, 0) == {} && Among(order, |order|) == ids
  {
  }

  lemma DropOneMore(m: map<nat, TopicRouter.Pending>, ids: set<nat>, id: nat)
    ensures m - ids - {id} == m - (ids + {id})
  {
  }

  lemma CountOneMore(ids: set<nat>, id: nat)
    requires id !in ids
    ensures var more: set<nat> := ids + {id}; multiset(more) == multiset(ids) + multiset{id}
  {
  }

  class Router {
    const sup: BaseSupervisor
    var pending: map<nat, TopicRouter.Pending>
    var requestCounter: nat
    var attached: map<nat, string>
    var workers: nat
    ghost var tickets: multiset<string>
    ghost var exited: set<nat>
    ghost var posted: map<nat, nat>
    ghost var settled: multiset<nat>
    ghost var answered: map<nat, bool>

    ghost function Abs(): TopicRouter.Router
      reads this, sup
    {
      TopicRouter.Router(sup.Abs(), pending, requestCounter, attached, tickets, workers, exited, posted, settled, answered)
    }

    ghost predicate Valid()
      reads this, sup
    {
      sup.Valid() && TopicRouter.Inv(Abs())
    }

    constructor (maxRetries: nat)
      ensures Valid() && Abs() == TopicRouter.Fresh(maxRetries) && fresh(sup)
    {
      sup := new BaseSupervisor(maxRetries);
      pending, requestCounter, attached, workers := map[], 0, map[], 0;
      tickets, exited, posted, settled, answered := multiset{}, {}, map[], multiset{}, map[];
      new;
      TopicRouter.FreshInv(maxRetries);
    }

    /** Rejects every request of a topic, one by one, in the order in which they were registered: ids count up. */
    method RejectPending(topic: string) returns (ghost rejected: seq<nat>)
      modifies this`pending, this`settled
      ensures Abs() == TopicRouter.RejectPendingFor(old(Abs()), topic)
      ensures Ascending(rejected, TopicRouter.PendingFor(old(Abs()), topic))
    {
      var ids := set id | id in pending && pending[id].topic == topic;
      var order := InOrder(ids);
      RejectAll(order, ids);
      rejected := order;
    }

    method RejectAll(order: seq<nat>, ghost ids: set<nat>)
      requires Ascending(order, ids)
      modifies this`pending, this`settled
      ensures pending == old(pending) - ids && settled == old(settled) + multiset(ids)
    {
      hide Ascending, Among;
      AmongEnds(order, ids);
      for i := 0 to |order|
        invariant pending == old(pending) - Among(order, i) && settled == old(settled) + multiset(Among(order, i))
      {
        AmongStep(order, ids, i);
        CountOneMore(Among(order, i), order[i]);
        DropOneMore(old(pending), Among(order, i), order[i]);
        pending, settled := pending - {order[i]}, settled + multiset{order[i]};
      }
    }

    method TerminateWorker(a: Actor)
      modifies this`attached, this`pending, this`settled
      ensures Abs() == TopicRouter.DoTerminate(old(Abs()), a)
    {
      hide Ascending;
      match a.resource
      case None =>
      case Some(w) =>
        attached := attached - {w};
        var _ := RejectPending(a.key);
    }

    /** Starts the topic's next worker; its actor has just been entered. */
    method AttachWorker(topic: string)
      modifies this`attached, this`workers
      ensures Abs() == TopicRouter.StartWorker(old(Abs()), topic, sup.Abs())
    {
      attached := attached[workers := topic];
      workers := workers + 1;
    }

    /** The part of dispatch before it waits; false when the retries are used up. */
    method BeginDispatch(topic: string) returns (ok: bool)
      requires Valid()
      modifies this, sup
      ensures Valid() && Abs() == TopicRouter.Step(old(Abs()), TopicRouter.BeginDispatch(topic))
      ensures ok <==> topic !in old(sup.actors) || !IsTerminal(old(sup.actors)[topic].state) || old(sup.actors)[topic].retryCount < sup.maxRetries
      ensures ok <==> topic in sup.actors && !IsTerminal(sup.actors[topic].state)
    {
      ghost var before := Abs();
      ok := BeginRun(topic);
      TopicRouter.BeginKeepsInv(before, topic);
    }

    method BeginRun(topic: string) returns (ok: bool)
      requires sup.Valid()
      modifies this, sup
      ensures sup.Valid() && Abs() == TopicRouter.Begin(old(Abs()), topic)
      ensures ok <==> topic !in old(sup.actors) || !IsTerminal(old(sup.actors)[topic].state) || old(sup.actors)[topic].retryCount < sup.maxRetries
      ensures ok <==> topic in sup.actors && !IsTerminal(sup.actors[topic].state)
    {
      if topic !in sup.actors {
        SpawnTopic(topic);
      } else if IsTerminal(sup.actors[topic].state) {
        ok := RestartTopic(topic);
        return;
      }
      ok := true;
    }

    method SpawnTopic(topic: string)
      requires sup.Valid() && topic !in sup.actors
      modifies this, sup
      ensures sup.Valid() && Abs() == TopicRouter.Begin(old(Abs()), topic)
      ensures topic in sup.actors && !IsTerminal(sup.actors[topic].state)
    {
      TopicRouter.SpawnNew(sup.Abs(), topic, Some(workers));
      var _ := sup.SpawnActor(topic, Some(workers));
      AttachWorker(topic);
    }

    method RestartTopic(topic: string) returns (ok: bool)
      requires sup.Valid() && topic in sup.actors && IsTerminal(sup.actors[topic].state)
      modifies this, sup
      ensures sup.Valid() && Abs() == TopicRouter.Begin(old(Abs()), topic)
      ensures ok <==> old(sup.actors)[topic].retryCount < sup.maxRetries
      ensures ok <==> topic in sup.actors && !IsTerminal(sup.actors[topic].state)
    {
      hide TopicRouter.Inv, Supervisor.Inv, Ascending;
      TopicRouter.RestartTerminal(sup.Abs(), topic, None);
      TopicRouter.RestartTerminal(sup.Abs(), topic, Some(workers));
      var existing := sup.actors[topic];
      if existing.retryCount >= sup.maxRetries {
        var _ := sup.RestartActor(topic, None);
        return false;
      }
      TerminateWorker(existing);
      var _ := sup.RestartActor(topic, Some(workers));
      AttachWorker(topic);
      ok := true;
    }

    /** The part of dispatch after its topic was seen running; `accepted` is whether posting succeeds.
        Without a result the dispatch throws. */
    method PostRequest(topic: string, accepted: bool) returns (id: Option<nat>)
      requires Valid() && topic in tickets
      modifies this
      ensures Valid() && Abs() == TopicRouter.Step(old(Abs()), TopicRouter.Post(topic, accepted))
      ensures id == if topic in sup.actors then Some(old(requestCounter) + 1) else None
    {
      hide TopicRouter.Inv, TopicRouter.Deliver;
      ghost var before := Abs();
      ReadyToPost(before, topic);
      TopicRouter.DeliverKeepsInv(before, topic, accepted);
      id := PostRun(topic, accepted);
    }

    method PostRun(topic: string, accepted: bool) returns (id: Option<nat>)
      requires requestCounter + 1 !in pending && (topic in sup.actors ==> sup.actors[topic].resource.Some?)
      modifies this`tickets, this`requestCounter, this`pending, this`posted, this`settled
      ensures Abs() == TopicRouter.Deliver(old(Abs()), topic, accepted)
      ensures id == if topic in sup.actors then Some(old(requestCounter) + 1) else None
    {
      hide TopicRouter.Inv, Supervisor.Inv;
      ghost var before := Abs();
      tickets := tickets - multiset{topic};
      if topic !in sup.actors {
        return None;
      }
      requestCounter := requestCounter + 1;
      assert Abs() == before.(tickets := before.tickets - multiset{topic}, requestCounter := before.requestCounter + 1);
      PostTo(topic, sup.actors[topic].resource.value, requestCounter, accepted);
      id := Some(requestCounter);
    }

    /** Registers the request and posts it; a post that throws takes the registration back. */
    method PostTo(topic: string, worker: nat, id: nat, accepted: bool)
      requires id !in pending
      modifies this`pending, this`posted, this`settled
      ensures Abs() == if accepted then old(Abs()).(pending := old(pending)[id := TopicRouter.Pending(topic, worker)],
                                                    posted := old(posted)[id := worker])
                       else old(Abs()).(settled := old(settled) + multiset{id})
    {
      pending := pending[id := TopicRouter.Pending(topic, worker)];
      if accepted {
        posted := posted[id := worker];
      } else {
        pending := pending - {id};
        settled := settled + multiset{id};
      }
    }

    method OnOnline(w: nat)
      requires Valid() && TopicRouter.Enabled(Abs(), TopicRouter.Online(w))
      modifies sup
      ensures Valid() && Abs() == TopicRouter.Step(old(Abs()), TopicRouter.Online(w))
    {
      hide TopicRouter.Inv, Supervisor.Inv;
      TopicRouter.StepKeepsInv(Abs(), TopicRouter.Online(w));
      TopicRouter.StepKeepsSupervisor(Abs(), TopicRouter.Online(w));
      if w in attached && attached[w] in sup.actors && !IsTerminal(sup.actors[attached[w]].state) {
        sup.ApplyEvent(attached[w], Start, Started);
      }
    }

    /** Returns whether the reply settled a request. */
    method OnMessage(w: nat, id: nat, ok: bool) returns (settles: bool)
      requires Valid() && TopicRouter.Enabled(Abs(), TopicRouter.Message(w, id, ok))
      modifies this
      ensures Valid() && Abs() == TopicRouter.Step(old(Abs()), TopicRouter.Message(w, id, ok))
      ensures settles <==> w in attached && id in old(pending)
      ensures settles ==> pending == old(pending) - {id} && settled == old(settled) + multiset{id} && answered == old(answered)[id := ok]
      ensures !settles ==> Abs() == old(Abs())
    {
      TopicRouter.StepKeepsInv(Abs(), TopicRouter.Message(w, id, ok));
      if w !in attached || id !in pending {
        return false;
      }
      pending := pending - {id};
      settled := settled + multiset{id};
      answered := answered[id := ok];
      settles := true;
    }

    method OnError(w: nat)
      requires Valid() && TopicRouter.Enabled(Abs(), TopicRouter.WorkerError(w))
      modifies this, sup
      ensures Valid() && Abs() == TopicRouter.Step(old(Abs()), TopicRouter.WorkerError(w))
    {
      hide Ascending, TopicRouter.Inv, Supervisor.Inv;
      TopicRouter.StepKeepsInv(Abs(), TopicRouter.WorkerError(w));
      TopicRouter.StepKeepsSupervisor(Abs(), TopicRouter.WorkerError(w));
      if w in attached {
        var key := attached[w];
        if key in sup.actors && !IsTerminal(sup.actors[key].state) {
          sup.ApplyEvent(key, Error, Crashed);
        }
        var _ := RejectPending(key);
      }
    }

    method OnExit(w: nat, code: int)
      requires Valid() && TopicRouter.Enabled(Abs(), TopicRouter.Exit(w, code))
      modifies this, sup
      ensures Valid() && Abs() == TopicRouter.Step(old(Abs()), TopicRouter.Exit(w, code))
    {
      hide Ascending, TopicRouter.Inv, Supervisor.Inv;
      TopicRouter.StepKeepsInv(Abs(), TopicRouter.Exit(w, code));
      TopicRouter.StepKeepsSupervisor(Abs(), TopicRouter.Exit(w, code));
      exited := exited + {w};
      if w in attached && attached[w] in sup.actors {
        var key := attached[w];
        if !IsTerminal(sup.actors[key].state) {
          if code == 0 {
            sup.ApplyEvent(key, Finish, Finished);
          } else {
            sup.ApplyEvent(key, Error, Crashed);
          }
        }
        var _ := RejectPending(key);
      }
    }

    method ReapTopic(topic: string)
      requires Valid()
      modifies this, sup
      ensures Valid() && Abs() == TopicRouter.Step(old(Abs()), TopicRouter.ReapTopic(topic))
    {
      hide TopicRouter.Inv, Supervisor.Inv;
      TopicRouter.ReapKeepsInv(Abs(), topic);
      if topic in sup.actors {
        var actor := sup.actors[topic];
        sup.ReapActor(topic);
        TerminateWorker(actor);
      }
    }
  }
}
