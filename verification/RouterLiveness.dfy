/** What the router gets done: replies settle their requests, ends of workers settle theirs, and a dispatch to a topic
    that can still be served makes the round trip. */
module RouterLiveness {
  import opened OrderedMaps
  import opened TopicRouter
  import Supervisor

  /** Request `x` is as it was. */
  ghost predicate SameRequest(r: Router, r': Router, x: nat) {
    && (x in r'.pending <==> x in r.pending) && (x in r.pending ==> r'.pending[x] == r.pending[x])
    && r'.settled[x] == r.settled[x]
    && (x in r'.answered <==> x in r.answered) && (x in r.answered ==> r'.answered[x] == r.answered[x])
  }

  /** Request `x` was pending and is settled now. */
  ghost predicate JustSettled(r: Router, r': Router, x: nat) {
    x in r.pending && r.settled[x] == 0 && x !in r'.pending && r'.settled[x] == 1
  }

  // ----- replies -----

  /** A reply from the worker that a pending request was posted to settles it, with the reply's outcome, and touches
      nothing else. */
  lemma ReplySettles(r: Router, w: nat, id: nat, ok: bool)
    requires Inv(r) && id in r.pending && r.pending[id].topic in r.sup.actors
    requires r.sup.actors[r.pending[id].topic].resource == Some(w)
    ensures var r' := Step(r, Message(w, id, ok));
            && JustSettled(r, r', id) && id in r'.answered && r'.answered[id] == ok
            && (forall x :: x != id ==> SameRequest(r, r', x))
            && r'.sup == r.sup && r'.attached == r.attached && r'.tickets == r.tickets
    ensures r.tickets == multiset{} ==> Enabled(r, Message(w, id, ok))
  {
    assert PendingOk(r, id) && TopicOk(r, r.pending[id].topic);
  }

  /** The same for every state that a run reaches. */
  lemma RepliesSettle(maxRetries: nat, moves: seq<Move>, w: nat, id: nat, ok: bool)
    requires Runs(Fresh(maxRetries), moves)
    requires var r := Exec(Fresh(maxRetries), moves);
             id in r.pending && r.pending[id].topic in r.sup.actors && r.sup.actors[r.pending[id].topic].resource == Some(w)
    ensures var r := Exec(Fresh(maxRetries), moves); var r' := Step(r, Message(w, id, ok));
            && JustSettled(r, r', id) && id in r'.answered && r'.answered[id] == ok
            && forall x :: x != id ==> SameRequest(r, r', x)
  {
    FreshInv(maxRetries);
    RunKeepsInv(Fresh(maxRetries), moves);
    ReplySettles(Exec(Fresh(maxRetries), moves), w, id, ok);
  }

  lemma TerminateAnswersNothing(r: Router, a: Supervisor.Actor)
    ensures DoTerminate(r, a).answered == r.answered
  {
  }

  lemma BeginAnswersNothing(r: Router, topic: string)
    ensures Begin(r, topic).answered == r.answered
  {
    hide DoTerminate, Supervisor.Spawn, Supervisor.Restart;
    if topic in r.sup.actors { TerminateAnswersNothing(r, r.sup.actors[topic]); }
  }

  lemma DeliverAnswersNothing(r: Router, topic: string, accepted: bool)
    ensures Deliver(r, topic, accepted).answered == r.answered
  {
  }

  lemma CrashAnswersNothing(r: Router, w: nat, code: int)
    ensures Step(r, WorkerError(w)).answered == r.answered && Step(r, Exit(w, code)).answered == r.answered
  {
    hide PendingFor, Supervisor.Apply, Supervisor.Terminate;
  }

  lemma ReapAnswersNothing(r: Router, topic: string)
    ensures Step(r, ReapTopic(topic)).answered == r.answered
  {
    hide DoTerminate, Supervisor.Reap;
    if topic in r.sup.actors { TerminateAnswersNothing(r.(sup := Supervisor.Reap(r.sup, topic)), r.sup.actors[topic]); }
  }

  /** Only replies answer: every other end of a request is a rejection. */
  lemma OnlyRepliesAnswer(r: Router, m: Move)
    ensures Step(r, m).answered ==
            if m.Message? && m.worker in r.attached && m.id in r.pending then r.answered[m.id := m.ok] else r.answered
  {
    if m.WorkerError? || m.Exit? {
      CrashAnswersNothing(r, m.worker, if m.Exit? then m.code else 0);
    } else if m.ReapTopic? {
      ReapAnswersNothing(r, m.topic);
    } else {
      hide Begin, Deliver, DoTerminate, RejectPendingFor, Supervisor.Apply, Supervisor.Terminate, Supervisor.Reap;
      if m.BeginDispatch? { BeginAnswersNothing(r, m.topic); }
      if m.Post? { DeliverAnswersNothing(r, m.topic, m.accepted); }
    }
  }

  // ----- ends of workers -----

  /** The topic's pending requests are settled, unanswered, and all others are as they were. */
  ghost predicate TopicRejected(r: Router, r': Router, topic: string) {
    && r'.answered == r.answered
    && forall x: nat :: if x in r.pending && r.pending[x].topic == topic then JustSettled(r, r', x) else SameRequest(r, r', x)
  }

  lemma RejectSettles(r: Router, topic: string)
    requires Inv(r)
    ensures TopicRejected(r, RejectPendingFor(r, topic), topic)
  {
    var r' := RejectPendingFor(r, topic);
    forall x: nat ensures if x in r.pending && r.pending[x].topic == topic then JustSettled(r, r', x) else SameRequest(r, r', x) {
      assert RequestOk(r, x) && (x in r.pending ==> PendingOk(r, x));
      var gone: multiset<nat> := multiset(PendingFor(r, topic));
      assert gone[x] == if x in PendingFor(r, topic) then 1 else 0;
    }
  }

  /** A worker that crashes fails its actor and rejects its topic's requests. */
  lemma ErrorRejects(r: Router, w: nat)
    requires Inv(r) && Enabled(r, WorkerError(w)) && w in r.attached
    ensures var topic, r' := r.attached[w], Step(r, WorkerError(w));
            && TopicRejected(r, r', topic) && topic in r.sup.actors && topic in r'.sup.actors
            && r'.sup.actors[topic].state == if Supervisor.IsTerminal(r.sup.actors[topic].state) then r.sup.actors[topic].state else Supervisor.Failed
  {
    assert AttachedOk(r, w) && TopicOk(r, r.attached[w]);
    RejectSettles(r, r.attached[w]);
  }

  /** A worker that exits rejects its topic's requests as well. */
  lemma ExitRejects(r: Router, w: nat, code: int)
    requires Inv(r) && Enabled(r, Exit(w, code)) && w in r.attached
    ensures var topic, r' := r.attached[w], Step(r, Exit(w, code));
            && TopicRejected(r, r', topic) && topic in r.sup.actors && topic in r'.sup.actors
            && r'.sup.actors[topic].state ==
               match r.sup.actors[topic].state
               case Running => if code == 0 then Supervisor.Completed else Supervisor.Failed
               case Dispatched => if code == 0 then Supervisor.Dispatched else Supervisor.Failed
               case terminal => terminal
  {
    ExitEffect(r, w, code);
    assert TopicOk(r, r.attached[w]);
    RejectSettles(r, r.attached[w]);
  }

  /** Reaping a topic rejects its requests, forgets its actor and listens no more to its worker. */
  lemma ReapRejects(r: Router, topic: string)
    requires Inv(r) && topic in r.sup.actors
    ensures var r' := Step(r, ReapTopic(topic));
            && TopicRejected(r, r', topic) && topic !in r'.sup.actors
            && r.sup.actors[topic].resource.Some? && r'.attached == r.attached - {r.sup.actors[topic].resource.value}
  {
    assert TopicOk(r, topic);
    RejectSettles(r, topic);
  }

  /** A post registers a request under a fresh id and sends it to the topic's worker; one that throws settles it as a
      rejection. */
  lemma PostEffect(r: Router, topic: string, accepted: bool)
    requires Inv(r) && Enabled(r, Post(topic, accepted)) && topic in r.sup.actors
    ensures var id, r' := r.requestCounter + 1, Step(r, Post(topic, accepted));
            && id !in r.pending && r.settled[id] == 0 && r.sup.actors[topic].resource.Some?
            && (forall x :: x != id ==> SameRequest(r, r', x))
            && r'.sup == r.sup && r'.attached == r.attached && r'.workers == r.workers && r'.exited == r.exited
            && r'.tickets == r.tickets - multiset{topic} && r'.answered == r.answered
            && (if accepted then id in r'.pending && r'.pending[id] == Pending(topic, r.sup.actors[topic].resource.value) && r'.settled[id] == 0
                else id !in r'.pending && r'.settled[id] == 1)
            && (accepted ==> id in r'.posted && r'.posted[id] == r.sup.actors[topic].resource.value)
  {
    assert TopicOk(r, topic);
    NextIdIsFree(r);
    assert RequestOk(r, r.requestCounter + 1);
  }

  // ----- the round trip -----

  /** A dispatch can still reach a worker of the topic: there is no actor yet, or a terminal one with retries left, or a
      live one whose worker has not exited. */
  predicate Serviceable(r: Router, topic: string) {
    topic in r.sup.actors ==>
      var a := r.sup.actors[topic];
      if Supervisor.IsTerminal(a.state) then a.retryCount < r.sup.maxRetries
      else a.resource.Some? && a.resource.value !in r.exited
  }

  /** The topic's actor waits for, or runs on, a worker that is alive and listened to. */
  ghost predicate Served(r: Router, topic: string, w: nat) {
    && topic in r.sup.actors && r.sup.actors[topic].resource == Some(w)
    && (r.sup.actors[topic].state == Supervisor.Dispatched || r.sup.actors[topic].state == Supervisor.Running)
    && w < r.workers && w !in r.exited && w in r.attached && r.attached[w] == topic
  }

  /** A dispatch begins by giving the topic a worker, if it has none that can serve it. */
  lemma BeginServes(r: Router, topic: string)
    requires Inv(r) && r.tickets == multiset{} && Serviceable(r, topic)
    ensures var r' := Step(r, BeginDispatch(topic));
            && Inv(r') && topic in r'.sup.actors && r'.sup.actors[topic].resource.Some?
            && Served(r', topic, r'.sup.actors[topic].resource.value)
            && r'.tickets == r.tickets && r'.requestCounter == r.requestCounter && r'.exited == r.exited
  {
    BeginKeepsInv(r, topic);
    var r' := Begin(r, topic);
    if topic in r.sup.actors {
      assert TopicOk(r, topic);
      Supervisor.TerminateKeeps(r.sup, topic);
      RestartTerminalOrNot(r, topic);
    } else {
      SpawnNew(r.sup, topic, Some(r.workers));
    }
    assert TopicOk(r', topic);
  }

  lemma RestartTerminalOrNot(r: Router, topic: string)
    requires topic in r.sup.actors
    ensures Supervisor.IsTerminal(r.sup.actors[topic].state) && !Supervisor.Exhausted(r.sup, topic) ==>
              Dispatches(r.sup, Supervisor.Restart(r.sup, topic, Some(r.workers)), topic, Some(r.workers))
  {
    if Supervisor.IsTerminal(r.sup.actors[topic].state) { RestartTerminal(r.sup, topic, Some(r.workers)); }
  }

  /** The worker's report that it is online makes the topic run. */
  lemma OnlineRuns(r: Router, topic: string, w: nat)
    requires Inv(r) && Served(r, topic, w) && r.tickets == multiset{}
    ensures Enabled(r, Online(w))
    ensures var r' := Step(r, Online(w));
            && Inv(r') && Served(r', topic, w) && r'.sup.actors[topic].state == Supervisor.Running
            && r'.tickets == r.tickets && r'.requestCounter == r.requestCounter && r'.pending == r.pending
            && r'.settled == r.settled && r'.answered == r.answered
  {
    StepKeepsInv(r, Online(w));
  }

  /** A dispatch that sees its topic running may post. */
  lemma PollTickets(r: Router, topic: string, w: nat)
    requires Inv(r) && Served(r, topic, w) && r.sup.actors[topic].state == Supervisor.Running && r.tickets == multiset{}
    ensures var r' := Step(r, Poll(topic)); Inv(r') && r' == r.(tickets := multiset{topic})
  {
    StepKeepsInv(r, Poll(topic));
  }

  /** The moves of one request that meets no trouble. */
  function Trip(topic: string, w: nat, id: nat, ok: bool): seq<Move> {
    [BeginDispatch(topic), Online(w), Poll(topic), Post(topic, true), Message(w, id, ok)]
  }

  lemma FiveMoves(r: Router, m: seq<Move>)
    requires |m| == 5 && Enabled(r, m[0]) && Enabled(Step(r, m[0]), m[1]) && Enabled(Step(Step(r, m[0]), m[1]), m[2])
    requires Enabled(Step(Step(Step(r, m[0]), m[1]), m[2]), m[3]) && Enabled(Step(Step(Step(Step(r, m[0]), m[1]), m[2]), m[3]), m[4])
    ensures Runs(r, m) && Exec(r, m) == Step(Step(Step(Step(Step(r, m[0]), m[1]), m[2]), m[3]), m[4])
  {
    hide Step, Enabled;
    var r1 := Step(r, m[0]);
    var r2 := Step(r1, m[1]);
    var r3 := Step(r2, m[2]);
    var r4 := Step(r3, m[3]);
    var r5 := Step(r4, m[4]);
    assert m[1..][1..] == m[2..] && m[2..][1..] == m[3..] && m[3..][1..] == m[4..] && m[4..][1..] == [];
    assert Runs(r5, []) && Exec(r5, []) == r5;
    assert Runs(r4, m[4..]) && Exec(r4, m[4..]) == r5;
    assert Runs(r3, m[3..]) && Exec(r3, m[3..]) == r5;
    assert Runs(r2, m[2..]) && Exec(r2, m[2..]) == r5;
    assert Runs(r1, m[1..]) && Exec(r1, m[1..]) == r5;
  }

  /** The last two moves: post and reply. */
  lemma PostAndReply(r: Router, topic: string, w: nat, ok: bool)
    requires Inv(r) && Served(r, topic, w) && r.tickets == multiset{topic}
    ensures var id := r.requestCounter + 1; var r4 := Step(r, Post(topic, true)); var r5 := Step(r4, Message(w, id, ok));
            && Enabled(r, Post(topic, true)) && Enabled(r4, Message(w, id, ok))
            && id !in r.pending && r.settled[id] == 0
            && id !in r5.pending && r5.settled[id] == 1 && id in r5.answered && r5.answered[id] == ok
            && (forall x :: x != id ==> SameRequest(r, r5, x)) && r5.tickets == multiset{}
  {
    hide Inv, Step, Enabled, Served, SameRequest;
    var id, r4 := r.requestCounter + 1, Step(r, Post(topic, true));
    PostIsEnabled(r, topic, w);
    PostEffect(r, topic, true);
    StepKeepsInv(r, Post(topic, true));
    ReplySettles(r4, w, id, ok);
    var r5 := Step(r4, Message(w, id, ok));
    forall x | x != id ensures SameRequest(r, r5, x) { SameThrough(r, r4, r5, x); }
    Settles(r4, r5, id);
  }

  lemma PostIsEnabled(r: Router, topic: string, w: nat)
    requires Served(r, topic, w) && r.tickets == multiset{topic}
    ensures Enabled(r, Post(topic, true)) && topic in r.sup.actors && r.sup.actors[topic].resource == Some(w)
  {
  }

  lemma Settles(r: Router, r': Router, id: nat)
    requires JustSettled(r, r', id)
    ensures id !in r'.pending && r'.settled[id] == 1
  {
  }

  lemma SameThrough(r: Router, r': Router, r'': Router, x: nat)
    requires SameRequest(r, r', x) && SameRequest(r', r'', x)
    ensures SameRequest(r, r'', x)
  {
  }

  /** In every reachable state with no dispatch about to post, a dispatch to a topic that can be served makes the round
      trip: begun, its worker online, seen running, posted and answered, it settles a fresh id with the reply's outcome.
      The requests of other topics stay as they are. */
  lemma RoundTrip(maxRetries: nat, moves: seq<Move>, topic: string, ok: bool) returns (w: nat)
    requires Runs(Fresh(maxRetries), moves)
    requires var r := Exec(Fresh(maxRetries), moves); r.tickets == multiset{} && Serviceable(r, topic)
    ensures var r := Exec(Fresh(maxRetries), moves); var id := r.requestCounter + 1; var trip := Trip(topic, w, id, ok);
            && Runs(r, trip) && id !in r.pending && r.settled[id] == 0
            && var end := Exec(r, trip);
               && id !in end.pending && end.settled[id] == 1 && id in end.answered && end.answered[id] == ok
               && forall x :: x in r.pending && r.pending[x].topic != topic ==> x in end.pending && end.pending[x] == r.pending[x]
  {
    hide Inv, Step, Enabled, Served, SameRequest, Serviceable, Runs, Exec;
    var r := Exec(Fresh(maxRetries), moves);
    FreshInv(maxRetries);
    RunKeepsInv(Fresh(maxRetries), moves);
    var id := r.requestCounter + 1;
    var r1 := Step(r, BeginDispatch(topic));
    BeginServes(r, topic);
    w := r1.sup.actors[topic].resource.value;
    OnlineRuns(r1, topic, w);
    var r2 := Step(r1, Online(w));
    PollTickets(r2, topic, w);
    var r3 := Step(r2, Poll(topic));
    StillServed(r2, topic, w);
    PostAndReply(r3, topic, w, ok);
    AlwaysEnabled(r, topic);
    AlwaysEnabled(r2, topic);
    FiveMoves(r, Trip(topic, w, id, ok));
    FreshId(r);
    forall x | x in r.pending && r.pending[x].topic != topic
      ensures x in Exec(r, Trip(topic, w, id, ok)).pending && Exec(r, Trip(topic, w, id, ok)).pending[x] == r.pending[x]
    {
      OthersWait(r, topic, x);
      StillPending(r3, Exec(r, Trip(topic, w, id, ok)), x);
    }
  }

  lemma StillServed(r: Router, topic: string, w: nat)
    requires Served(r, topic, w)
    ensures Served(r.(tickets := multiset{topic}), topic, w)
  {
  }

  lemma AlwaysEnabled(r: Router, topic: string)
    ensures Enabled(r, BeginDispatch(topic)) && Enabled(r, Poll(topic))
  {
  }

  lemma FreshId(r: Router)
    requires Inv(r)
    ensures r.requestCounter + 1 !in r.pending && r.settled[r.requestCounter + 1] == 0
  {
    NextIdIsFree(r);
    assert RequestOk(r, r.requestCounter + 1);
  }

  lemma OthersWait(r: Router, topic: string, x: nat)
    requires Inv(r) && x in r.pending && r.pending[x].topic != topic
    ensures var r' := Step(r, BeginDispatch(topic)); x in r'.pending && r'.pending[x] == r.pending[x] && x <= r.requestCounter
  {
    assert PendingOk(r, x);
    Contained(r, BeginDispatch(topic), r.pending[x].topic);
  }

  lemma StillPending(r: Router, r': Router, x: nat)
    requires SameRequest(r, r', x) && x in r.pending
    ensures x in r'.pending && r'.pending[x] == r.pending[x]
  {
  }

  // ----- the converse -----

  /** A topic that cannot be served is lost until it is reaped: no run revives it, and no dispatch of it ever posts. */
  lemma StepLost(r: Router, m: Move, topic: string)
    requires Inv(r) && Enabled(r, m) && !Serviceable(r, topic) && m != ReapTopic(topic)
    ensures !Serviceable(Step(r, m), topic)
  {
    assert TopicOk(r, topic);
    var a := r.sup.actors[topic];
    if !Supervisor.IsTerminal(a.state) {
      EarlyExitWedges(r, m, topic);
      StepKeepsLimit(r, m);
    } else if TopicOf(r, m) != Some(topic) {
      Contained(r, m, topic);
      StepKeepsLimit(r, m);
    } else {
      TerminalStays(r, m, topic);
    }
  }

  lemma StepKeepsLimit(r: Router, m: Move)
    ensures Step(r, m).sup.maxRetries == r.sup.maxRetries
  {
    if m.BeginDispatch? && m.topic in r.sup.actors { Supervisor.TerminateKeeps(r.sup, m.topic); }
  }

  lemma TerminalStays(r: Router, m: Move, topic: string)
    requires Inv(r) && Enabled(r, m) && TopicOf(r, m) == Some(topic) && m != ReapTopic(topic)
    requires topic in r.sup.actors && Supervisor.IsTerminal(r.sup.actors[topic].state) && Supervisor.Exhausted(r.sup, topic)
    ensures Step(r, m).sup == r.sup
  {
    if m.BeginDispatch? { RestartTerminal(r.sup, topic, None); }
    if m.Online? || m.Message? || m.WorkerError? || m.Exit? { CurrentWorker(r, m.worker); }
  }

  lemma {:induction false} LostForEver(r: Router, moves: seq<Move>, topic: string)
    requires Inv(r) && Runs(r, moves) && !Serviceable(r, topic) && ReapTopic(topic) !in moves
    ensures !Serviceable(Exec(r, moves), topic) && topic !in Exec(r, moves).tickets
    decreases |moves|
  {
    hide Step, Enabled, Serviceable, Inv;
    if moves == [] {
      NoTicket(r, topic);
    } else {
      assert moves[0] in moves && forall m :: m in moves[1..] ==> m in moves;
      StepLost(r, moves[0], topic);
      StepKeepsInv(r, moves[0]);
      LostForEver(Step(r, moves[0]), moves[1..], topic);
    }
  }

  lemma NoTicket(r: Router, topic: string)
    requires Inv(r) && !Serviceable(r, topic)
    ensures topic !in r.tickets
  {
    assert TopicOk(r, topic);
  }
}
