/** The subagent lifecycle table and the supervisor that applies it. An actor carries the number of its
    incarnation, which stands for the identity of the record a restart replaces. */
module Supervisor {
  import opened OrderedMaps

  datatype Lifecycle = Created | Dispatched | Running | Yielding | Completed | Failed | TimedOut | Aborted | Archived
  datatype Trigger = Dispatch | Start | Yield | ChildDone | Finish | Error | Timeout | ParentAbort | Archive

  function Transitions(s: Lifecycle, e: Trigger): Option<Lifecycle> {
    match (s, e)
    case (Created, Dispatch) => Some(Dispatched)
    case (Created, ParentAbort) => Some(Aborted)
    case (Dispatched, Start) => Some(Running)
    case (Dispatched, Error) => Some(Failed)
    case (Dispatched, Timeout) => Some(TimedOut)
    case (Dispatched, ParentAbort) => Some(Aborted)
    case (Running, Yield) => Some(Yielding)
    case (Running, Finish) => Some(Completed)
    case (Running, Error) => Some(Failed)
    case (Running, Timeout) => Some(TimedOut)
    case (Running, ParentAbort) => Some(Aborted)
    case (Yielding, ChildDone) => Some(Running)
    case (Yielding, ParentAbort) => Some(Aborted)
    case (Completed, Archive) => Some(Archived)
    case (Failed, Archive) => Some(Archived)
    case (TimedOut, Archive) => Some(Archived)
    case (Aborted, Archive) => Some(Archived)
    case _ => None
  }

  /** An event the table does not list leaves the state alone. */
  function TransitionSubagent(s: Lifecycle, e: Trigger): Lifecycle {
    match Transitions(s, e)
    case Some(next) => next
    case None => s
  }

  predicate IsTerminal(s: Lifecycle) {
    s == Completed || s == Failed || s == TimedOut || s == Aborted
  }

  datatype Kind = Spawned | Started | Finished | Crashed | Expired | Restarted | Reaped

  function MapEvent(e: Trigger): Kind {
    match e
    case Start => Started
    case Finish => Finished
    case Error => Crashed
    case Timeout => Expired
    case _ => Started
  }

  datatype Actor = Actor(key: string, state: Lifecycle, retryCount: nat, resource: Option<nat>, incarnation: nat)

  datatype Event = Event(kind: Kind, key: string, incarnation: nat, retryCount: nat, from: Lifecycle, to: Lifecycle)

  /** The supervisor's fields and, as history, the events it emitted and the key of every incarnation. */
  datatype State = State(
    maxRetries: nat, actors: map<string, Actor>,
    totalSpawned: nat, totalRestarted: nat, totalReaped: nat, totalFailed: nat,
    events: seq<Event>, owners: seq<string>)

  function Initial(maxRetries: nat): State {
    State(maxRetries, map[], 0, 0, 0, 0, [], [])
  }

  /** Applies an event to a registered actor: nothing happens unless the state changes. */
  function Apply(s: State, key: string, e: Trigger, kind: Kind): State
    requires key in s.actors
  {
    var a := s.actors[key];
    var next := TransitionSubagent(a.state, e);
    if next == a.state then s
    else
      s.(actors := s.actors[key := a.(state := next)],
         events := s.events + [Event(kind, key, a.incarnation, a.retryCount, a.state, next)],
         totalFailed := if next == Failed then s.totalFailed + 1 else s.totalFailed)
  }

  /** Registers an actor that is still in its first state. */
  function Register(s: State, key: string, retryCount: nat, spawned: nat, restarted: nat): State {
    s.(actors := s.actors[key := Actor(key, Created, retryCount, None, |s.owners|)],
       owners := s.owners + [key], totalSpawned := spawned, totalRestarted := restarted)
  }

  function Attach(s: State, key: string, resource: Option<nat>): State
    requires key in s.actors
  {
    s.(actors := s.actors[key := s.actors[key].(resource := resource)])
  }

  /** A new incarnation is registered, dispatched at once, and given its worker. */
  function Enter(s: State, key: string, retryCount: nat, spawned: nat, restarted: nat, kind: Kind, resource: Option<nat>): State {
    Attach(Apply(Register(s, key, retryCount, spawned, restarted), key, Dispatch, kind), key, resource)
  }

  /** `resource` is what starting the real worker yields; a key that is taken makes the source throw. */
  function Spawn(s: State, key: string, resource: Option<nat>): State {
    if key in s.actors then s
    else
      Enter(s, key, 0, s.totalSpawned + 1, s.totalRestarted, Spawned, resource)
  }

  /** An unknown key makes the source throw. */
  function Signal(s: State, key: string, e: Trigger): State {
    if key in s.actors then Apply(s, key, e, MapEvent(e)) else s
  }

  /** Drives a run that is still active to its end before it is discarded. */
  function Terminate(s: State, key: string): State
    requires key in s.actors
  {
    if IsTerminal(s.actors[key].state) then s else Apply(s, key, Error, Crashed)
  }

  predicate Exhausted(s: State, key: string)
    requires key in s.actors
  {
    s.actors[key].retryCount >= s.maxRetries
  }

  /** The next incarnation of a key whose old run has ended. */
  function Renew(t: State, key: string, retryCount: nat, resource: Option<nat>): State {
    Enter(t, key, retryCount, t.totalSpawned, t.totalRestarted + 1, Restarted, resource)
  }

  function Restart(s: State, key: string, resource: Option<nat>): State {
    if key !in s.actors then s
    else if Exhausted(s, key) then Terminate(s, key)
    else
      Renew(Terminate(s, key), key, s.actors[key].retryCount + 1, resource)
  }

  /** The archive event is emitted whether or not the table allows it. */
  function Reap(s: State, key: string): State {
    if key !in s.actors then s
    else
      var a := s.actors[key];
      var next := TransitionSubagent(a.state, Archive);
      s.(actors := s.actors - {key},
         events := s.events + [Event(Reaped, key, a.incarnation, a.retryCount, a.state, next)],
         totalReaped := s.totalReaped + 1)
  }

  function ReapAll(s: State, keys: seq<string>): State {
    if keys == [] then s else Reap(ReapAll(s, keys[..|keys| - 1]), keys[|keys| - 1])
  }

  /** Stopping reaps the registered keys one after the other. */
  datatype Op = OpSpawn(key: string, resource: Option<nat>) | OpSignal(key: string, e: Trigger)
              | OpRestart(key: string, resource: Option<nat>) | OpReap(key: string) | OpStop(keys: seq<string>)

  function Step(s: State, op: Op): State {
    match op
    case OpSpawn(key, resource) => Spawn(s, key, resource)
    case OpSignal(key, e) => Signal(s, key, e)
    case OpRestart(key, resource) => Restart(s, key, resource)
    case OpReap(key) => Reap(s, key)
    case OpStop(keys) => ReapAll(s, keys)
  }

  function Exec(s: State, ops: seq<Op>): State {
    if ops == [] then s else Step(Exec(s, ops[..|ops| - 1]), ops[|ops| - 1])
  }

  // ----- the event history -----

  /** The state the history leaves an incarnation in. */
  function LastState(events: seq<Event>, incarnation: nat): Lifecycle {
    if events == [] then Created
    else
      var last := events[|events| - 1];
      if last.incarnation == incarnation then last.to else LastState(events[..|events| - 1], incarnation)
  }

  /** Each event of an incarnation starts where its previous one ended. */
  ghost predicate Chained(events: seq<Event>) {
    forall i :: 0 <= i < |events| ==> ContinuesAt(events, i)
  }

  ghost predicate ContinuesAt(events: seq<Event>, i: nat)
    requires i < |events|
  {
    events[i].from == LastState(events[..i], events[i].incarnation)
  }

  ghost predicate IsEdge(from: Lifecycle, to: Lifecycle) {
    exists e :: Transitions(from, e) == Some(to)
  }

  ghost predicate OnlyTableEdges(events: seq<Event>) {
    forall x :: x in events && x.kind != Reaped ==> IsEdge(x.from, x.to)
  }

  function CountFailed(events: seq<Event>): nat {
    if events == [] then 0
    else CountFailed(events[..|events| - 1]) + (if events[|events| - 1].to == Failed then 1 else 0)
  }

  ghost predicate ActorOk(s: State, key: string)
    requires key in s.actors
  {
    var a := s.actors[key];
    && a.key == key && a.retryCount <= s.maxRetries
    && a.incarnation < |s.owners| && s.owners[a.incarnation] == key
    && a.state == LastState(s.events, a.incarnation)
  }

  ghost predicate Inv(s: State) {
    && (forall key {:trigger ActorOk(s, key)} :: key in s.actors ==> ActorOk(s, key))
    && (forall x :: x in s.events ==> x.incarnation < |s.owners|)
    && Chained(s.events) && OnlyTableEdges(s.events)
    && |s.actors| + s.totalReaped == s.totalSpawned
    && |s.owners| == s.totalSpawned + s.totalRestarted
    && s.totalFailed == CountFailed(s.events)
  }

  lemma LastStateAppend(events: seq<Event>, x: Event, incarnation: nat)
    ensures LastState(events + [x], incarnation) == if x.incarnation == incarnation then x.to else LastState(events, incarnation)
    ensures CountFailed(events + [x]) == CountFailed(events) + (if x.to == Failed then 1 else 0)
  {
    assert (events + [x])[..|events|] == events;
  }

  lemma ChainedAppend(events: seq<Event>, x: Event)
    requires Chained(events) && x.from == LastState(events, x.incarnation)
    ensures Chained(events + [x])
  {
    forall i | 0 <= i < |events + [x]| ensures ContinuesAt(events + [x], i) {
      assert (events + [x])[..i] == events[..i];
      if i == |events| { assert events[..i] == events; } else { assert ContinuesAt(events, i); }
    }
  }

  lemma ApplyInv(s: State, key: string, e: Trigger, kind: Kind)
    requires Inv(s) && key in s.actors && kind != Reaped
    ensures Inv(Apply(s, key, e, kind))
  {
    var a := s.actors[key];
    var next := TransitionSubagent(a.state, e);
    if next != a.state {
      var x := Event(kind, key, a.incarnation, a.retryCount, a.state, next);
      var s' := Apply(s, key, e, kind);
      assert ActorOk(s, key);
      assert IsEdge(a.state, next);
      ChainedAppend(s.events, x);
      LastStateAppend(s.events, x, a.incarnation);
      forall k | k in s'.actors ensures ActorOk(s', k) {
        assert ActorOk(s, k);
        LastStateAppend(s.events, x, s.actors[k].incarnation);
      }
    }
  }

  lemma {:induction false} NoEventsYet(events: seq<Event>, incarnation: nat)
    requires forall x :: x in events ==> x.incarnation < incarnation
    ensures LastState(events, incarnation) == Created
  {
    if events != [] {
      assert events[|events| - 1] in events;
      NoEventsYet(events[..|events| - 1], incarnation);
    }
  }

  /** A new incarnation is counted as spawned when its key is free and as restarted when it is not. */
  lemma RegisterInv(s: State, key: string, retryCount: nat, spawned: nat, restarted: nat)
    requires Inv(s) && retryCount <= s.maxRetries
    requires spawned == s.totalSpawned + (if key in s.actors then 0 else 1)
    requires restarted == s.totalRestarted + (if key in s.actors then 1 else 0)
    ensures Inv(Register(s, key, retryCount, spawned, restarted))
  {
    NoEventsYet(s.events, |s.owners|);
    var s' := Register(s, key, retryCount, spawned, restarted);
    forall k | k in s'.actors ensures ActorOk(s', k) {
      if k != key { assert ActorOk(s, k); }
    }
  }

  lemma AttachInv(s: State, key: string, resource: Option<nat>)
    requires Inv(s) && key in s.actors
    ensures Inv(Attach(s, key, resource))
  {
    var s' := Attach(s, key, resource);
    forall k | k in s'.actors ensures ActorOk(s', k) { assert ActorOk(s, k); }
  }

  lemma TerminateInv(s: State, key: string)
    requires Inv(s) && key in s.actors
    ensures Inv(Terminate(s, key))
  {
    if !IsTerminal(s.actors[key].state) { ApplyInv(s, key, Error, Crashed); }
  }

  lemma EnterInv(s: State, key: string, retryCount: nat, spawned: nat, restarted: nat, kind: Kind, resource: Option<nat>)
    requires Inv(s) && retryCount <= s.maxRetries && kind != Reaped
    requires spawned == s.totalSpawned + (if key in s.actors then 0 else 1)
    requires restarted == s.totalRestarted + (if key in s.actors then 1 else 0)
    ensures Inv(Enter(s, key, retryCount, spawned, restarted, kind, resource))
  {
    var created := Register(s, key, retryCount, spawned, restarted);
    RegisterInv(s, key, retryCount, spawned, restarted);
    ApplyInv(created, key, Dispatch, kind);
    AttachInv(Apply(created, key, Dispatch, kind), key, resource);
  }

  lemma SpawnInv(s: State, key: string, resource: Option<nat>)
    requires Inv(s)
    ensures Inv(Spawn(s, key, resource))
  {
    hide Inv, Enter;
    if key !in s.actors {
      EnterInv(s, key, 0, s.totalSpawned + 1, s.totalRestarted, Spawned, resource);
    }
  }

  lemma TerminateKeeps(s: State, key: string)
    requires key in s.actors
    ensures var s' := Terminate(s, key);
            && s'.maxRetries == s.maxRetries && key in s'.actors && s'.actors.Keys == s.actors.Keys
            && s'.totalSpawned == s.totalSpawned && s'.totalRestarted == s.totalRestarted
  {
  }

  lemma RenewInv(t: State, key: string, retryCount: nat, resource: Option<nat>)
    requires Inv(t) && key in t.actors && retryCount <= t.maxRetries
    ensures Inv(Renew(t, key, retryCount, resource))
  {
    hide Inv, Enter;
    EnterInv(t, key, retryCount, t.totalSpawned, t.totalRestarted + 1, Restarted, resource);
  }

  lemma RetriesLeft(s: State, key: string)
    requires key in s.actors && !Exhausted(s, key)
    ensures var s' := Terminate(s, key); key in s'.actors && s.actors[key].retryCount + 1 <= s'.maxRetries
  {
    TerminateKeeps(s, key);
  }

  lemma RestartInv(s: State, key: string, resource: Option<nat>)
    requires Inv(s)
    ensures Inv(Restart(s, key, resource))
  {
    hide Inv, Terminate, Renew, Exhausted;
    if key in s.actors {
      TerminateInv(s, key);
      if !Exhausted(s, key) {
        RetriesLeft(s, key);
        RenewInv(Terminate(s, key), key, s.actors[key].retryCount + 1, resource);
      }
    }
  }

  lemma ReapInv(s: State, key: string)
    requires Inv(s)
    ensures Inv(Reap(s, key))
  {
    if key in s.actors {
      var a := s.actors[key];
      var s' := Reap(s, key);
      var x := Event(Reaped, key, a.incarnation, a.retryCount, a.state, TransitionSubagent(a.state, Archive));
      assert ActorOk(s, key);
      ChainedAppend(s.events, x);
      LastStateAppend(s.events, x, a.incarnation);
      forall k | k in s'.actors ensures ActorOk(s', k) {
        assert ActorOk(s, k);
        LastStateAppend(s.events, x, s.actors[k].incarnation);
      }
      assert x.to != Failed;
      assert s.actors.Keys == s'.actors.Keys + {key};
      assert |s.actors.Keys| == |s'.actors.Keys| + 1;
    }
  }

  lemma {:induction false} ReapAllInv(s: State, keys: seq<string>)
    requires Inv(s)
    ensures Inv(ReapAll(s, keys))
  {
    if keys != [] {
      ReapAllInv(s, keys[..|keys| - 1]);
      ReapInv(ReapAll(s, keys[..|keys| - 1]), keys[|keys| - 1]);
    }
  }

  lemma StepInv(s: State, op: Op)
    requires Inv(s)
    ensures Inv(Step(s, op))
  {
    match op
    case OpSpawn(key, resource) => SpawnInv(s, key, resource);
    case OpSignal(key, e) => if key in s.actors { ApplyInv(s, key, e, MapEvent(e)); }
    case OpRestart(key, resource) => RestartInv(s, key, resource);
    case OpReap(key) => ReapInv(s, key);
    case OpStop(keys) => ReapAllInv(s, keys);
  }

  lemma InitialInv(maxRetries: nat)
    ensures Inv(Initial(maxRetries))
  {
  }

  lemma {:induction false} RunInv(maxRetries: nat, ops: seq<Op>)
    ensures Inv(Exec(Initial(maxRetries), ops))
  {
    if ops == [] {
      InitialInv(maxRetries);
    } else {
      RunInv(maxRetries, ops[..|ops| - 1]);
      StepInv(Exec(Initial(maxRetries), ops[..|ops| - 1]), ops[|ops| - 1]);
    }
  }

  // ----- what every run guarantees -----

  /** Over every run: events other than reaps follow the table, the events of one incarnation chain, no
      actor is retried beyond the limit, live actors are those spawned and not reaped, and the failure
      counter counts the events that enter the failed state. */
  lemma EveryRun(maxRetries: nat, ops: seq<Op>)
    ensures var s := Exec(Initial(maxRetries), ops);
            && OnlyTableEdges(s.events) && Chained(s.events)
            && (forall key :: key in s.actors ==> s.actors[key].retryCount <= maxRetries)
            && |s.actors| == s.totalSpawned - s.totalReaped
            && s.totalFailed == CountFailed(s.events)
  {
    RunInv(maxRetries, ops);
    KeepsLimit(maxRetries, ops);
    var s := Exec(Initial(maxRetries), ops);
    forall key | key in s.actors ensures s.actors[key].retryCount <= maxRetries { assert ActorOk(s, key); }
  }

  lemma {:induction false} ReapAllKeepsLimit(s: State, keys: seq<string>)
    ensures ReapAll(s, keys).maxRetries == s.maxRetries
  {
    if keys != [] { ReapAllKeepsLimit(s, keys[..|keys| - 1]); }
  }

  lemma {:induction false} KeepsLimit(maxRetries: nat, ops: seq<Op>)
    ensures Exec(Initial(maxRetries), ops).maxRetries == maxRetries
  {
    if ops != [] {
      var s := Exec(Initial(maxRetries), ops[..|ops| - 1]);
      KeepsLimit(maxRetries, ops[..|ops| - 1]);
      match ops[|ops| - 1]
      case OpStop(keys) => ReapAllKeepsLimit(s, keys);
      case OpRestart(key, _) => if key in s.actors { TerminateKeeps(s, key); }
      case _ =>
    }
  }

  /** A refused restart leaves its actor terminal exactly when the table lets an error end the actor's
      state; a yielding actor stays alive. */
  lemma RefusedRestart(s: State, key: string, resource: Option<nat>)
    requires key in s.actors && Exhausted(s, key)
    ensures key in Restart(s, key, resource).actors
    ensures IsTerminal(Restart(s, key, resource).actors[key].state)
       <==> s.actors[key].state !in {Created, Yielding, Archived}
  {
  }

  lemma RunStep(s: State, ops: seq<Op>, op: Op)
    ensures Exec(s, ops + [op]) == Step(Exec(s, ops), op)
  {
    assert (ops + [op])[..|ops|] == ops;
  }

  /** Spawned, started, yielding, and restarted without any retries left. */
  function RestartWhileYielding(key: string): seq<Op> {
    [OpSpawn(key, None), OpSignal(key, Start), OpSignal(key, Yield), OpRestart(key, None)]
  }

  lemma UpToYield(key: string)
    ensures var s := Step(Step(Step(Initial(0), OpSpawn(key, None)), OpSignal(key, Start)), OpSignal(key, Yield));
            key in s.actors && s.actors[key].state == Yielding && s.actors[key].retryCount == 0 && s.maxRetries == 0
  {
    var s1 := Step(Initial(0), OpSpawn(key, None));
    assert key in s1.actors && s1.actors[key].state == Dispatched && s1.actors[key].retryCount == 0 && s1.maxRetries == 0;
    var s2 := Step(s1, OpSignal(key, Start));
    assert key in s2.actors && s2.actors[key].state == Running && s2.actors[key].retryCount == 0 && s2.maxRetries == 0;
  }

  /** This happens: a run after which the refused actor is still yielding. */
  lemma RefusedRestartHappens(key: string)
    ensures var s := Exec(Initial(0), RestartWhileYielding(key));
            key in s.actors && s.actors[key].state == Yielding && !IsTerminal(s.actors[key].state)
  {
    var spawn, start, pause, restart := OpSpawn(key, None), OpSignal(key, Start), OpSignal(key, Yield), OpRestart(key, None);
    assert Exec(Initial(0), []) == Initial(0) && [] + [spawn] == [spawn] && [spawn] + [start] == [spawn, start];
    assert [spawn, start] + [pause] == [spawn, start, pause] && [spawn, start, pause] + [restart] == RestartWhileYielding(key);
    hide Step, Exec;
    RunStep(Initial(0), [], spawn);
    RunStep(Initial(0), [spawn], start);
    RunStep(Initial(0), [spawn, start], pause);
    RunStep(Initial(0), [spawn, start, pause], restart);
    UpToYield(key);
    RestartOfYielding(Exec(Initial(0), [spawn, start, pause]), key);
  }

  lemma RestartOfYielding(s: State, key: string)
    requires key in s.actors && s.actors[key].state == Yielding && Exhausted(s, key)
    ensures Step(s, OpRestart(key, None)) == s
  {
  }
}
