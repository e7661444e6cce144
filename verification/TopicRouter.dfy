/** The topic router: one long-lived worker per topic, requests routed to it and settled by its replies
    or by its end. Workers are numbered in the order in which they start. */
module TopicRouter {
  import opened OrderedMaps
  import opened Supervisor

  /** `worker` records where the request was posted. */
  datatype Pending = Pending(topic: string, worker: nat)

  /** `attached` are the workers whose listeners are installed and `tickets` the dispatches that have seen
      their topic running and post next. `exited`, `posted`, `settled` and `answered` are history; `answered` says of
      the requests settled by a reply whether the reply was a result or an error. */
  datatype Router = Router(
    sup: State, pending: map<nat, Pending>, requestCounter: nat, attached: map<nat, string>,
    tickets: multiset<string>, workers: nat, exited: set<nat>, posted: map<nat, nat>, settled: multiset<nat>,
    answered: map<nat, bool>)

  datatype Move =
    | BeginDispatch(topic: string) | Poll(topic: string) | Post(topic: string, accepted: bool)
    | Online(worker: nat) | Message(worker: nat, id: nat, ok: bool) | WorkerError(worker: nat) | Exit(worker: nat, code: int)
    | ReapTopic(topic: string)

  function Fresh(maxRetries: nat): Router {
    Router(Initial(maxRetries), map[], 0, map[], multiset{}, 0, {}, map[], multiset{}, map[])
  }

  function PendingFor(r: Router, topic: string): set<nat> {
    set id | id in r.pending && r.pending[id].topic == topic
  }

  function RejectPendingFor(r: Router, topic: string): Router {
    r.(pending := r.pending - PendingFor(r, topic), settled := r.settled + multiset(PendingFor(r, topic)))
  }

  /** Listeners are detached before anything else, then the topic's requests are rejected. */
  function DoTerminate(r: Router, a: Actor): Router {
    match a.resource
    case None => r
    case Some(w) => RejectPendingFor(r.(attached := r.attached - {w}), a.key)
  }

  /** Starts the next worker for a topic and attaches its listeners. */
  function StartWorker(r: Router, topic: string, sup: State): Router {
    r.(sup := sup, workers := r.workers + 1, attached := r.attached[r.workers := topic])
  }

  /** The first half of a dispatch: spawn on first use, restart a terminal actor, else leave it running.
      A refused restart makes the dispatch throw. */
  function Begin(r: Router, topic: string): Router {
    if topic !in r.sup.actors then
      StartWorker(r, topic, Spawn(r.sup, topic, Some(r.workers)))
    else if !IsTerminal(r.sup.actors[topic].state) then r
    else if Exhausted(r.sup, topic) then r.(sup := Restart(r.sup, topic, None))
    else StartWorker(DoTerminate(r, r.sup.actors[topic]), topic, Restart(r.sup, topic, Some(r.workers)))
  }

  /** The second half: the topic may have been reaped in the meantime, which makes the dispatch throw;
      posting itself may throw, which rejects the request. */
  function Deliver(r: Router, topic: string, accepted: bool): Router {
    var r' := r.(tickets := r.tickets - multiset{topic});
    if topic !in r.sup.actors || r.sup.actors[topic].resource.None? then r'
    else
      var id := r.requestCounter + 1;
      var w := r.sup.actors[topic].resource.value;
      if accepted then
        r'.(requestCounter := id, pending := r.pending[id := Pending(topic, w)], posted := r.posted[id := w])
      else r'.(requestCounter := id, settled := r.settled + multiset{id})
  }

  function Step(r: Router, m: Move): Router {
    match m
    case BeginDispatch(topic) => Begin(r, topic)
    case Poll(topic) =>
      if topic in r.sup.actors && r.sup.actors[topic].state == Running then r.(tickets := r.tickets + multiset{topic}) else r
    case Post(topic, accepted) => Deliver(r, topic, accepted)
    case Online(w) =>
      if w in r.attached && r.attached[w] in r.sup.actors && !IsTerminal(r.sup.actors[r.attached[w]].state)
      then r.(sup := Apply(r.sup, r.attached[w], Start, Started)) else r
    case Message(w, id, ok) =>
      if w in r.attached && id in r.pending then
        r.(pending := r.pending - {id}, settled := r.settled + multiset{id}, answered := r.answered[id := ok])
      else r
    case WorkerError(w) =>
      if w !in r.attached then r
      else
        var key := r.attached[w];
        RejectPendingFor(if key in r.sup.actors then r.(sup := Terminate(r.sup, key)) else r, key)
    case Exit(w, code) =>
      var r' := r.(exited := r.exited + {w});
      if w !in r.attached || r.attached[w] !in r.sup.actors then r'
      else
        var key := r.attached[w];
        if IsTerminal(r.sup.actors[key].state) then RejectPendingFor(r', key)
        else
          var sup := if code == 0 then Apply(r.sup, key, Finish, Finished) else Apply(r.sup, key, Error, Crashed);
          RejectPendingFor(r'.(sup := sup), key)
    case ReapTopic(topic) =>
      if topic !in r.sup.actors then r
      else DoTerminate(r.(sup := Reap(r.sup, topic)), r.sup.actors[topic])
  }

  /** A worker acts until it exits, replies only to requests it received, and no worker event comes between
      a dispatch seeing its topic running and posting. */
  ghost predicate Enabled(r: Router, m: Move) {
    match m
    case Post(topic, _) => topic in r.tickets
    case Online(w) => w < r.workers && w !in r.exited && r.tickets == multiset{}
    case Message(w, id, _) => w < r.workers && w !in r.exited && r.tickets == multiset{} && id in r.posted && r.posted[id] == w
    case WorkerError(w) => w < r.workers && w !in r.exited && r.tickets == multiset{}
    case Exit(w, _) => w < r.workers && w !in r.exited && r.tickets == multiset{}
    case _ => true
  }

  ghost predicate Runs(r: Router, moves: seq<Move>)
    decreases |moves|
  {
    moves == [] || (Enabled(r, moves[0]) && Runs(Step(r, moves[0]), moves[1..]))
  }

  function Exec(r: Router, moves: seq<Move>): Router
    decreases |moves|
  {
    if moves == [] then r else Exec(Step(r, moves[0]), moves[1..])
  }

  // ----- what every move keeps -----

  ghost predicate TopicOk(r: Router, key: string)
    requires key in r.sup.actors
  {
    var a := r.sup.actors[key];
    && a.key == key && a.state in {Dispatched, Running, Completed, Failed}
    && a.resource.Some? && a.resource.value < r.workers
    && a.resource.value in r.attached && r.attached[a.resource.value] == key
    && (a.state == Running ==> a.resource.value !in r.exited)
    && (key in r.tickets ==> !IsTerminal(a.state) && a.resource.value !in r.exited)
  }

  ghost predicate AttachedOk(r: Router, w: nat)
    requires w in r.attached
  {
    w < r.workers && r.attached[w] in r.sup.actors && r.sup.actors[r.attached[w]].resource == Some(w)
  }

  /** A pending request sits at its topic's current worker, and that worker has not exited. */
  ghost predicate PendingOk(r: Router, id: nat)
    requires id in r.pending
  {
    var p := r.pending[id];
    && 1 <= id <= r.requestCounter && r.settled[id] == 0
    && p.topic in r.sup.actors && r.sup.actors[p.topic].resource == Some(p.worker)
    && p.worker in r.attached && r.attached[p.worker] == p.topic && p.worker !in r.exited
    && id in r.posted && r.posted[id] == p.worker
  }

  ghost predicate RequestOk(r: Router, id: nat) {
    && r.settled[id] <= 1
    && (r.settled[id] == 1 || id in r.pending <==> 1 <= id <= r.requestCounter)
    && (id in r.posted ==> id <= r.requestCounter)
  }

  ghost predicate Inv(r: Router) {
    && (forall key {:trigger TopicOk(r, key)} :: key in r.sup.actors ==> TopicOk(r, key))
    && (forall w {:trigger AttachedOk(r, w)} :: w in r.attached ==> AttachedOk(r, w))
    && (forall id {:trigger PendingOk(r, id)} :: id in r.pending ==> PendingOk(r, id))
    && (forall id {:trigger RequestOk(r, id)} :: RequestOk(r, id))
    && (forall w :: w in r.exited ==> w < r.workers)
  }

  lemma RejectFacts(r: Router, topic: string, id: nat)
    requires RequestOk(r, id) && (id in r.pending ==> PendingOk(r, id))
    ensures var r' := RejectPendingFor(r, topic);
            && RequestOk(r', id)
            && (id in r'.pending <==> id in r.pending && r.pending[id].topic != topic)
            && (id in r'.pending ==> r'.pending[id] == r.pending[id] && r'.settled[id] == r.settled[id])
  {
    var gone := PendingFor(r, topic);
    assert id in gone <==> id in r.pending && r.pending[id].topic == topic;
    var bag: multiset<nat> := multiset(gone);
    assert bag[id] == if id in gone then 1 else 0;
  }

  /** Ending a worker's requests keeps the others as they are. */
  lemma RejectKeepsInv(r: Router, topic: string)
    requires Inv(r)
    ensures Inv(RejectPendingFor(r, topic))
  {
    var r' := RejectPendingFor(r, topic);
    forall key | key in r'.sup.actors ensures TopicOk(r', key) { assert TopicOk(r, key); }
    forall w | w in r'.attached ensures AttachedOk(r', w) { assert AttachedOk(r, w); }
    forall id: nat ensures RequestOk(r', id) && (id in r'.pending ==> PendingOk(r', id)) {
      assert RequestOk(r, id) && (id in r.pending ==> PendingOk(r, id));
      RejectFacts(r, topic, id);
    }
  }

  ghost predicate Quiet(r: Router, topic: string) {
    forall id :: id in r.pending ==> r.pending[id].topic != topic
  }

  lemma RejectQuiets(r: Router, topic: string)
    ensures Quiet(RejectPendingFor(r, topic), topic)
  {
    forall id | id in RejectPendingFor(r, topic).pending ensures r.pending[id].topic != topic {
      assert id !in PendingFor(r, topic);
    }
  }

  /** A topic's actor changes its state only; while requests of the topic are pending or about to be
      posted, its worker has to stay usable. */
  lemma StateChangeKeepsInv(r: Router, key: string, sup: State, exited: set<nat>)
    requires Inv(r) && key in r.sup.actors && key in sup.actors && r.sup.actors[key].resource.Some?
    requires sup.actors == r.sup.actors[key := r.sup.actors[key].(state := sup.actors[key].state)]
    requires sup.actors[key].state in {Dispatched, Running, Completed, Failed}
    requires exited == r.exited || (exited == r.exited + {r.sup.actors[key].resource.value} && Quiet(r, key))
    requires sup.actors[key].state == Running ==> r.sup.actors[key].resource.value !in exited
    requires key in r.tickets ==> !IsTerminal(sup.actors[key].state) && exited == r.exited
    ensures Inv(r.(sup := sup, exited := exited))
  {
    var r' := r.(sup := sup, exited := exited);
    assert TopicOk(r, key);
    forall k | k in r'.sup.actors ensures TopicOk(r', k) { assert TopicOk(r, k); }
    forall w | w in r'.attached ensures AttachedOk(r', w) { assert AttachedOk(r, w); }
    forall id: nat ensures RequestOk(r', id) && (id in r'.pending ==> PendingOk(r', id)) {
      assert RequestOk(r, id) && (id in r.pending ==> PendingOk(r, id));
      if id in r.pending { assert TopicOk(r, r.pending[id].topic); }
    }
  }

  /** The topic and its worker disappear together with the topic's requests. */
  lemma RemoveKeepsInv(r: Router, key: string, sup: State)
    requires Inv(r) && key in r.sup.actors && r.sup.actors[key].resource.Some? && Quiet(r, key)
    requires sup.actors == r.sup.actors - {key}
    ensures Inv(r.(sup := sup, attached := r.attached - {r.sup.actors[key].resource.value}))
  {
    var w := r.sup.actors[key].resource.value;
    var r' := r.(sup := sup, attached := r.attached - {w});
    assert TopicOk(r, key);
    forall k | k in r'.sup.actors ensures TopicOk(r', k) { assert TopicOk(r, k); }
    forall w | w in r'.attached ensures AttachedOk(r', w) { assert AttachedOk(r, w); }
    forall id: nat ensures RequestOk(r', id) && (id in r'.pending ==> PendingOk(r', id)) {
      assert RequestOk(r, id) && (id in r.pending ==> PendingOk(r, id));
      if id in r.pending { assert TopicOk(r, r.pending[id].topic); }
    }
  }

  /** A new worker takes over a topic that has no live one. */
  lemma StartKeepsInv(r: Router, topic: string, sup: State)
    requires Inv(r) && topic !in r.sup.actors && Quiet(r, topic)
    requires Dispatches(r.sup, sup, topic, Some(r.workers))
    ensures Inv(StartWorker(r, topic, sup))
  {
    var r' := StartWorker(r, topic, sup);
    forall k | k in r'.sup.actors ensures TopicOk(r', k) { if k != topic { assert TopicOk(r, k); } }
    forall w | w in r'.attached ensures AttachedOk(r', w) { if w != r.workers { assert AttachedOk(r, w); } }
    forall id: nat ensures RequestOk(r', id) && (id in r'.pending ==> PendingOk(r', id)) {
      assert RequestOk(r, id) && (id in r.pending ==> PendingOk(r, id));
      if id in r.pending { assert TopicOk(r, r.pending[id].topic); }
    }
  }

  /** `s'` differs from `s` in the actors by a dispatched actor for `key`. */
  ghost predicate Dispatches(s: State, s': State, key: string, resource: Option<nat>) {
    && key in s'.actors && s'.actors == s.actors[key := s'.actors[key]]
    && s'.actors[key].key == key && s'.actors[key].state == Dispatched && s'.actors[key].resource == resource
  }

  lemma RestartTerminal(s: State, key: string, resource: Option<nat>)
    requires key in s.actors && IsTerminal(s.actors[key].state)
    ensures Exhausted(s, key) ==> Restart(s, key, resource) == s
    ensures !Exhausted(s, key) ==> Dispatches(s, Restart(s, key, resource), key, resource)
  {
  }

  lemma SpawnNew(s: State, key: string, resource: Option<nat>)
    requires key !in s.actors
    ensures Dispatches(s, Spawn(s, key, resource), key, resource)
  {
  }

  lemma BeginKeepsInv(r: Router, topic: string)
    requires Inv(r)
    ensures Inv(Begin(r, topic))
  {
    if topic !in r.sup.actors {
      assert Quiet(r, topic) by { forall id | id in r.pending ensures r.pending[id].topic != topic { assert PendingOk(r, id); } }
      SpawnNew(r.sup, topic, Some(r.workers));
      StartKeepsInv(r, topic, Spawn(r.sup, topic, Some(r.workers)));
    } else if IsTerminal(r.sup.actors[topic].state) {
      RestartTerminal(r.sup, topic, Some(r.workers));
      RestartTerminal(r.sup, topic, None);
      if !Exhausted(r.sup, topic) {
        RenewKeepsInv(r, topic, Restart(r.sup, topic, Some(r.workers)));
      }
    }
  }

  lemma RenewKeepsInv(r: Router, topic: string, sup: State)
    requires Inv(r) && topic in r.sup.actors
    requires Dispatches(r.sup, sup, topic, Some(r.workers))
    ensures Inv(StartWorker(DoTerminate(r, r.sup.actors[topic]), topic, sup))
  {
    assert TopicOk(r, topic);
    var quiet := RejectPendingFor(r, topic);
    var w := r.sup.actors[topic].resource.value;
    var gone := r.sup.(actors := r.sup.actors - {topic});
    RejectKeepsInv(r, topic);
    RejectQuiets(r, topic);
    RemoveKeepsInv(quiet, topic, gone);
    var bare := quiet.(sup := gone, attached := r.attached - {w});
    StartKeepsInv(bare, topic, sup);
    assert DoTerminate(r, r.sup.actors[topic]) == quiet.(attached := r.attached - {w});
    assert StartWorker(DoTerminate(r, r.sup.actors[topic]), topic, sup) == StartWorker(bare, topic, sup);
  }

  lemma NextIdIsFree(r: Router)
    requires Inv(r)
    ensures r.requestCounter + 1 !in r.pending
  {
    assert r.requestCounter + 1 in r.pending ==> PendingOk(r, r.requestCounter + 1);
  }

  lemma DeliverFacts(r: Router, topic: string, accepted: bool, id: nat)
    requires topic in r.tickets && RequestOk(r, id) && (id in r.pending ==> PendingOk(r, id))
    requires topic in r.sup.actors ==> TopicOk(r, topic)
    ensures var r' := Deliver(r, topic, accepted); RequestOk(r', id) && (id in r'.pending ==> PendingOk(r', id))
  {
  }

  lemma DeliverKeeps(r: Router, topic: string, accepted: bool)
    ensures var r' := Deliver(r, topic, accepted);
            && r'.sup == r.sup && r'.attached == r.attached && r'.workers == r.workers && r'.exited == r.exited
            && forall k :: k in r'.tickets ==> k in r.tickets
  {
  }

  lemma DeliverKeepsInv(r: Router, topic: string, accepted: bool)
    requires Inv(r) && topic in r.tickets
    ensures Inv(Deliver(r, topic, accepted))
  {
    hide Deliver, RequestOk, PendingOk;
    var r' := Deliver(r, topic, accepted);
    DeliverKeeps(r, topic, accepted);
    forall k | k in r'.sup.actors ensures TopicOk(r', k) { assert TopicOk(r, k); }
    forall w | w in r'.attached ensures AttachedOk(r', w) { assert AttachedOk(r, w); }
    if topic in r.sup.actors { assert TopicOk(r, topic); }
    forall id: nat ensures RequestOk(r', id) && (id in r'.pending ==> PendingOk(r', id)) {
      assert RequestOk(r, id) && (id in r.pending ==> PendingOk(r, id));
      DeliverFacts(r, topic, accepted, id);
    }
  }

  lemma MessageKeepsInv(r: Router, w: nat, id: nat, ok: bool)
    requires Inv(r) && w in r.attached && id in r.pending
    ensures Inv(r.(pending := r.pending - {id}, settled := r.settled + multiset{id}, answered := r.answered[id := ok]))
  {
    var r' := r.(pending := r.pending - {id}, settled := r.settled + multiset{id}, answered := r.answered[id := ok]);
    forall k | k in r'.sup.actors ensures TopicOk(r', k) { assert TopicOk(r, k); }
    forall w | w in r'.attached ensures AttachedOk(r', w) { assert AttachedOk(r, w); }
    assert PendingOk(r, id);
    forall x: nat ensures RequestOk(r', x) && (x in r'.pending ==> PendingOk(r', x)) {
      assert RequestOk(r, x) && (x in r.pending ==> PendingOk(r, x));
    }
  }

  lemma PollKeepsInv(r: Router, topic: string)
    requires Inv(r) && topic in r.sup.actors && r.sup.actors[topic].state == Running
    ensures Inv(r.(tickets := r.tickets + multiset{topic}))
  {
    var r' := r.(tickets := r.tickets + multiset{topic});
    forall k | k in r'.sup.actors ensures TopicOk(r', k) { assert TopicOk(r, k); }
    forall w | w in r'.attached ensures AttachedOk(r', w) { assert AttachedOk(r, w); }
    forall x: nat ensures RequestOk(r', x) && (x in r'.pending ==> PendingOk(r', x)) {
      assert RequestOk(r, x) && (x in r.pending ==> PendingOk(r, x));
    }
  }

  lemma ErrorKeepsInv(r: Router, w: nat)
    requires Inv(r) && Enabled(r, WorkerError(w)) && w in r.attached
    ensures Inv(Step(r, WorkerError(w)))
  {
    var key := r.attached[w];
    assert AttachedOk(r, w) && TopicOk(r, key);
    StateChangeKeepsInv(r, key, Terminate(r.sup, key), r.exited);
    RejectKeepsInv(r.(sup := Terminate(r.sup, key)), key);
  }

  /** Which states an exit leaves an actor in. An exit with code 0 before the worker came online is an
      event the table does not list, so it is ignored. */
  function AfterExit(s: Lifecycle, code: int): Lifecycle {
    if IsTerminal(s) then s
    else if code == 0 then (if s == Running then Completed else s)
    else Failed
  }

  lemma ExitEffect(r: Router, w: nat, code: int)
    requires Inv(r) && Enabled(r, Exit(w, code)) && w in r.attached
    ensures var key, r' := r.attached[w], Step(r, Exit(w, code));
            && key in r.sup.actors && key in r'.sup.actors
            && r'.sup.actors == r.sup.actors[key := r.sup.actors[key].(state := AfterExit(r.sup.actors[key].state, code))]
            && r' == RejectPendingFor(r, key).(sup := r'.sup, exited := r.exited + {w})
  {
    assert AttachedOk(r, w) && TopicOk(r, r.attached[w]);
  }

  lemma ExitKeepsInv(r: Router, w: nat, code: int)
    requires Inv(r) && Enabled(r, Exit(w, code))
    ensures Inv(Step(r, Exit(w, code)))
  {
    var r' := Step(r, Exit(w, code));
    if w in r.attached {
      var key := r.attached[w];
      assert AttachedOk(r, w) && TopicOk(r, key);
      ExitEffect(r, w, code);
      RejectKeepsInv(r, key);
      RejectQuiets(r, key);
      StateChangeKeepsInv(RejectPendingFor(r, key), key, r'.sup, r.exited + {w});
    } else {
      forall k | k in r'.sup.actors ensures TopicOk(r', k) { assert TopicOk(r, k); }
      forall w | w in r'.attached ensures AttachedOk(r', w) { assert AttachedOk(r, w); }
      forall x: nat ensures RequestOk(r', x) && (x in r'.pending ==> PendingOk(r', x)) {
        assert RequestOk(r, x) && (x in r.pending ==> PendingOk(r, x));
      }
    }
  }

  lemma ReapKeepsInv(r: Router, topic: string)
    requires Inv(r)
    ensures Inv(Step(r, ReapTopic(topic)))
  {
    if topic in r.sup.actors {
      assert TopicOk(r, topic);
      var quiet := RejectPendingFor(r, topic);
      RejectKeepsInv(r, topic);
      RejectQuiets(r, topic);
      RemoveKeepsInv(quiet, topic, Reap(r.sup, topic));
      assert Step(r, ReapTopic(topic)) ==
             quiet.(sup := Reap(r.sup, topic), attached := r.attached - {r.sup.actors[topic].resource.value});
    }
  }

  lemma StepKeepsInv(r: Router, m: Move)
    requires Inv(r) && Enabled(r, m)
    ensures Inv(Step(r, m))
  {
    match m
    case BeginDispatch(topic) => BeginKeepsInv(r, topic);
    case Poll(topic) => if topic in r.sup.actors && r.sup.actors[topic].state == Running { PollKeepsInv(r, topic); }
    case Post(topic, accepted) => DeliverKeepsInv(r, topic, accepted);
    case Online(w) =>
      if w in r.attached {
        var key := r.attached[w];
        assert AttachedOk(r, w) && TopicOk(r, key);
        if !IsTerminal(r.sup.actors[key].state) { StateChangeKeepsInv(r, key, Apply(r.sup, key, Start, Started), r.exited); }
      }
    case Message(w, id, ok) => if w in r.attached && id in r.pending { MessageKeepsInv(r, w, id, ok); }
    case WorkerError(w) => if w in r.attached { ErrorKeepsInv(r, w); }
    case Exit(w, code) => ExitKeepsInv(r, w, code);
    case ReapTopic(topic) => ReapKeepsInv(r, topic);
  }

  lemma {:induction false} RunKeepsInv(r: Router, moves: seq<Move>)
    requires Inv(r) && Runs(r, moves)
    ensures Inv(Exec(r, moves))
    decreases |moves|
  {
    if moves != [] {
      StepKeepsInv(r, moves[0]);
      RunKeepsInv(Step(r, moves[0]), moves[1..]);
    }
  }

  lemma FreshInv(maxRetries: nat)
    ensures Inv(Fresh(maxRetries)) && Supervisor.Inv(Fresh(maxRetries).sup)
  {
    InitialInv(maxRetries);
  }

  // ----- what every run guarantees -----

  /** Every request is posted to the worker its topic has now and that has not exited, or it is settled;
      it is never both and never settled twice. */
  lemma RequestsSettleOnce(maxRetries: nat, moves: seq<Move>, id: nat)
    requires Runs(Fresh(maxRetries), moves)
    ensures var r := Exec(Fresh(maxRetries), moves);
            && (1 <= id <= r.requestCounter <==> id in r.pending || r.settled[id] == 1)
            && r.settled[id] <= 1 && !(id in r.pending && r.settled[id] == 1)
            && (id in r.pending ==>
                  var p := r.pending[id];
                  && p.topic in r.sup.actors && r.sup.actors[p.topic].resource == Some(p.worker)
                  && p.worker !in r.exited && id in r.posted && r.posted[id] == p.worker)
  {
    FreshInv(maxRetries);
    RunKeepsInv(Fresh(maxRetries), moves);
    var r := Exec(Fresh(maxRetries), moves);
    assert RequestOk(r, id);
    if id in r.pending { assert PendingOk(r, id); }
  }

  /** A reply settles a request only if it comes from the worker the topic has now; replies of replaced
      or reaped workers change nothing. */
  lemma OnlyCurrentWorkerReplies(r: Router, w: nat, id: nat, ok: bool)
    requires Inv(r) && Enabled(r, Message(w, id, ok))
    ensures w !in r.attached ==> Step(r, Message(w, id, ok)) == r
    ensures Step(r, Message(w, id, ok)).settled != r.settled ==>
              && id in r.pending && r.pending[id].topic in r.sup.actors
              && r.sup.actors[r.pending[id].topic].resource == Some(w)
              && Step(r, Message(w, id, ok)).settled == r.settled + multiset{id}
  {
    if id in r.pending { assert PendingOk(r, id); }
  }

  /** The topic a move is about. */
  function TopicOf(r: Router, m: Move): Option<string> {
    match m
    case BeginDispatch(topic) => Some(topic)
    case Poll(topic) => Some(topic)
    case Post(topic, _) => Some(topic)
    case Online(w) => if w in r.attached then Some(r.attached[w]) else None
    case Message(w, _, _) => if w in r.attached then Some(r.attached[w]) else None
    case WorkerError(w) => if w in r.attached then Some(r.attached[w]) else None
    case Exit(w, _) => if w in r.attached then Some(r.attached[w]) else None
    case ReapTopic(topic) => Some(topic)
  }

  /** A topic's actor and its pending requests are the same in both states. */
  ghost predicate SameFor(r: Router, r': Router, topic: string) {
    && (topic in r'.sup.actors <==> topic in r.sup.actors)
    && (topic in r.sup.actors ==> r'.sup.actors[topic] == r.sup.actors[topic])
    && (forall id :: id in r'.pending && r'.pending[id].topic == topic <==> id in r.pending && r.pending[id].topic == topic)
    && (forall id :: id in r.pending && r.pending[id].topic == topic ==> r'.pending[id] == r.pending[id])
  }

  lemma RejectContained(r: Router, topic: string, other: string)
    requires topic != other
    ensures SameFor(r, RejectPendingFor(r, topic), other)
  {
  }

  lemma BeginContained(r: Router, topic: string, other: string)
    requires Inv(r) && topic != other
    ensures SameFor(r, Begin(r, topic), other)
  {
    RejectContained(r, topic, other);
    if topic in r.sup.actors {
      assert TopicOk(r, topic);
      if IsTerminal(r.sup.actors[topic].state) {
        RestartTerminal(r.sup, topic, Some(r.workers));
        RestartTerminal(r.sup, topic, None);
      }
    } else {
      SpawnNew(r.sup, topic, Some(r.workers));
    }
  }

  lemma PostContained(r: Router, topic: string, accepted: bool, other: string)
    requires Inv(r) && topic != other
    ensures SameFor(r, Deliver(r, topic, accepted), other)
  {
    NextIdIsFree(r);
  }

  lemma MessageContained(r: Router, w: nat, id: nat, ok: bool, other: string)
    requires Inv(r) && Enabled(r, Message(w, id, ok)) && (w in r.attached ==> r.attached[w] != other)
    ensures SameFor(r, Step(r, Message(w, id, ok)), other)
  {
    if id in r.pending { assert PendingOk(r, id); }
  }

  lemma CrashContained(r: Router, w: nat, code: int, other: string)
    requires Inv(r) && Enabled(r, Exit(w, code)) && w in r.attached && r.attached[w] != other
    ensures SameFor(r, Step(r, Exit(w, code)), other) && SameFor(r, Step(r, WorkerError(w)), other)
  {
    var key := r.attached[w];
    ExitEffect(r, w, code);
    RejectContained(r, key, other);
    RejectContained(if key in r.sup.actors then r.(sup := Terminate(r.sup, key)) else r, key, other);
  }

  lemma OnlineContained(r: Router, w: nat, other: string)
    requires w in r.attached ==> r.attached[w] != other
    ensures SameFor(r, Step(r, Online(w)), other)
  {
  }

  lemma ReapContained(r: Router, topic: string, other: string)
    requires Inv(r) && topic != other
    ensures SameFor(r, Step(r, ReapTopic(topic)), other)
  {
    if topic in r.sup.actors {
      assert TopicOk(r, topic);
      RejectContained(r, topic, other);
    }
  }

  /** Containment: a move about one topic, a crash included, leaves the actor and the pending requests of
      every other topic as they are. */
  lemma Contained(r: Router, m: Move, other: string)
    requires Inv(r) && Enabled(r, m) && TopicOf(r, m) != Some(other)
    ensures SameFor(r, Step(r, m), other)
  {
    hide Inv, Begin, Deliver, RejectPendingFor, DoTerminate, Apply, Reap, Terminate;
    match m
    case BeginDispatch(topic) => BeginContained(r, topic, other);
    case Poll(topic) =>
    case Post(topic, accepted) => PostContained(r, topic, accepted, other);
    case Online(w) => OnlineContained(r, w, other);
    case Message(w, id, ok) => MessageContained(r, w, id, ok, other);
    case WorkerError(w) => if w in r.attached { CrashContained(r, w, 1, other); }
    case Exit(w, code) => if w in r.attached { CrashContained(r, w, code, other); }
    case ReapTopic(topic) => ReapContained(r, topic, other);
  }

  lemma CurrentWorker(r: Router, w: nat)
    requires Inv(r) && w in r.attached
    ensures r.attached[w] in r.sup.actors && r.sup.actors[r.attached[w]].resource == Some(w)
  {
    assert AttachedOk(r, w);
  }

  /** A worker's exit ends its topic's actor, so that the next dispatch restarts it, exactly unless the
      worker exits with code 0 before it came online. */
  lemma ExitHealsUnlessEarly(r: Router, w: nat, code: int)
    requires Inv(r) && Enabled(r, Exit(w, code)) && w in r.attached
    ensures r.attached[w] in r.sup.actors && r.attached[w] in Step(r, Exit(w, code)).sup.actors
    ensures IsTerminal(Step(r, Exit(w, code)).sup.actors[r.attached[w]].state)
       <==> !(code == 0 && r.sup.actors[r.attached[w]].state == Dispatched)
  {
    ExitEffect(r, w, code);
    assert TopicOk(r, r.attached[w]);
  }

  /** The topic's actor waits for a worker that is gone. */
  ghost predicate Wedged(r: Router, topic: string) {
    && topic in r.sup.actors && r.sup.actors[topic].state == Dispatched
    && r.sup.actors[topic].resource.Some? && r.sup.actors[topic].resource.value in r.exited
  }

  /** After such an early exit the topic stays as it is: no dispatch and no event revives it, only a reap
      removes it. */
  lemma EarlyExitWedges(r: Router, m: Move, topic: string)
    requires Inv(r) && Enabled(r, m) && m != ReapTopic(topic) && Wedged(r, topic)
    ensures topic in Step(r, m).sup.actors && Step(r, m).sup.actors[topic] == r.sup.actors[topic]
    ensures Wedged(Step(r, m), topic)
  {
    assert TopicOk(r, topic);
    if TopicOf(r, m) != Some(topic) {
      Contained(r, m, topic);
    } else if m.Online? || m.Message? || m.WorkerError? || m.Exit? {
      CurrentWorker(r, m.worker);
    }
  }

  /** This lasts over any run that does not reap the topic. */
  lemma {:induction false} WedgedForEver(r: Router, moves: seq<Move>, topic: string)
    requires Inv(r) && Wedged(r, topic) && Runs(r, moves) && ReapTopic(topic) !in moves
    ensures Wedged(Exec(r, moves), topic)
    decreases |moves|
  {
    hide Inv, Step, Enabled;
    if moves != [] {
      assert moves[0] in moves && forall m :: m in moves[1..] ==> m in moves;
      EarlyExitWedges(r, moves[0], topic);
      StepKeepsInv(r, moves[0]);
      WedgedForEver(Step(r, moves[0]), moves[1..], topic);
    }
  }

  lemma FirstDispatch(maxRetries: nat, topic: string)
    ensures var r := Step(Fresh(maxRetries), BeginDispatch(topic));
            && r.workers == 1 && r.attached == map[0 := topic] && r.exited == {} && r.tickets == multiset{}
            && topic in r.sup.actors && r.sup.actors[topic].state == Dispatched && r.sup.actors[topic].resource == Some(0)
  {
  }

  lemma ExitAtOnce(r: Router, topic: string)
    requires r.workers == 1 && r.attached == map[0 := topic] && r.exited == {} && r.tickets == multiset{}
    requires topic in r.sup.actors && r.sup.actors[topic].state == Dispatched && r.sup.actors[topic].resource == Some(0)
    ensures Enabled(r, Exit(0, 0)) && Wedged(Step(r, Exit(0, 0)), topic)
  {
  }

  /** This happens: a topic's first worker exits with code 0 before it comes online, and whatever else the router does,
      reaping apart, no later dispatch finds the topic running. */
  lemma EarlyExitHappens(maxRetries: nat, topic: string, moves: seq<Move>)
    requires ReapTopic(topic) !in moves
    ensures var r := Step(Step(Fresh(maxRetries), BeginDispatch(topic)), Exit(0, 0));
            && Runs(Fresh(maxRetries), [BeginDispatch(topic), Exit(0, 0)])
            && (Runs(r, moves) ==> Wedged(Exec(r, moves), topic))
  {
    hide Inv, Step;
    var r0 := Fresh(maxRetries);
    var r1 := Step(r0, BeginDispatch(topic));
    var r2 := Step(r1, Exit(0, 0));
    FirstDispatch(maxRetries, topic);
    ExitAtOnce(r1, topic);
    assert [BeginDispatch(topic), Exit(0, 0)][1..] == [Exit(0, 0)] && [Exit(0, 0)][1..] == [];
    assert Runs(r2, []) && Runs(r1, [Exit(0, 0)]);
    FreshInv(maxRetries);
    StepKeepsInv(r0, BeginDispatch(topic));
    StepKeepsInv(r1, Exit(0, 0));
    if Runs(r2, moves) { WedgedForEver(r2, moves, topic); }
  }

  /** The router keeps every guarantee of the supervisor it extends. */
  lemma StepKeepsSupervisor(r: Router, m: Move)
    requires Inv(r) && Enabled(r, m) && Supervisor.Inv(r.sup)
    ensures Supervisor.Inv(Step(r, m).sup)
  {
    hide Supervisor.Inv, Spawn, Restart, Apply, Reap, Terminate;
    match m
    case BeginDispatch(topic) =>
      SpawnInv(r.sup, topic, Some(r.workers));
      RestartInv(r.sup, topic, Some(r.workers));
      RestartInv(r.sup, topic, None);
    case Online(w) => if w in r.attached { assert AttachedOk(r, w); ApplyInv(r.sup, r.attached[w], Start, Started); }
    case WorkerError(w) => if w in r.attached { assert AttachedOk(r, w); TerminateInv(r.sup, r.attached[w]); }
    case Exit(w, code) =>
      if w in r.attached {
        assert AttachedOk(r, w);
        ApplyInv(r.sup, r.attached[w], Finish, Finished);
        ApplyInv(r.sup, r.attached[w], Error, Crashed);
      }
    case ReapTopic(topic) => ReapInv(r.sup, topic);
    case _ =>
  }
}
